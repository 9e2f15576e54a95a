/** Cleanup of an attempt's recorded resources: what one worker does with the ledger it claimed. */
module Cleanup {
  import opened Optional

  datatype Resource = Pending | Running | Deleted | Absent | Retained | Failed | Unknown {
    predicate Confirmed() { Deleted? || Absent? }
    /** Still to be settled by some worker. */
    predicate Open() { Pending? || Running? }
  }

  type Ledger = seq<Resource>

  predicate AllConfirmed(l: Ledger) { forall k :: 0 <= k < |l| ==> l[k].Confirmed() }
  predicate AllAbsent(l: Ledger) { forall k :: 0 <= k < |l| ==> l[k].Absent? }
  predicate AllSettled(l: Ledger) { forall k :: 0 <= k < |l| ==> !l[k].Open() }

  datatype Effect = RemoteDeleted | AlreadyAbsent | CleanupFailed

  /** The one effect a settled ledger supports. */
  function Aggregate(l: Ledger): Effect {
    if !AllConfirmed(l) then CleanupFailed else if AllAbsent(l) then AlreadyAbsent else RemoteDeleted
  }

  // ---------------------------------------------------------------- the provider's answers

  datatype Fault =
    | NoFault
    | LocalState
    | Unsupported
    | IdentityMismatch
    | ExecutionUnresolved
    | AccessRefused
    | OtherFault

  datatype CallReply = Panicked | Replied(deleted: bool, absent: bool, wouldDelete: bool, fault: Fault)

  /** What a deletion call establishes; nothing when the worker's own state failed. */
  function CallVerdict(r: CallReply): (v: Option<Resource>)
    ensures v == Some(Deleted) <==> r == Replied(true, false, false, NoFault)
    ensures v == Some(Absent) <==> r == Replied(false, true, false, NoFault)
    ensures v == Some(Retained) <==>
              r.Replied? && !r.deleted && !r.absent && !r.wouldDelete && r.fault in {Unsupported, IdentityMismatch, ExecutionUnresolved}
    ensures v == Some(Failed) <==> r == Replied(false, false, false, AccessRefused)
    ensures v.None? <==> r.Replied? && r.fault.LocalState?
    ensures v.Some? ==> v.value in {Deleted, Absent, Retained, Failed, Unknown}
  {
    match r
    case Panicked => Some(Unknown)
    case Replied(deleted, absent, wouldDelete, fault) =>
      if fault.LocalState? then None
      else if fault.NoFault? && deleted && !absent && !wouldDelete then Some(Deleted)
      else if fault.NoFault? && absent && !deleted && !wouldDelete then Some(Absent)
      else if fault.NoFault? || deleted || absent || wouldDelete then Some(Unknown)
      else match fault
        case Unsupported => Some(Retained)
        case IdentityMismatch => Some(Retained)
        case ExecutionUnresolved => Some(Retained)
        case AccessRefused => Some(Failed)
        case _ => Some(Unknown)
  }

  datatype Description = DescribeLocalState | DescribeFailed | NotSupported | Described
  datatype Verification = VerifyLocalState | VerifyFailed | Verified
  datatype Inspection = Aborted | Withheld | Cleared

  /** A resource is cleared only as described and with its binding verified. */
  function Inspect(d: Description, v: Verification): (r: Inspection)
    ensures r.Cleared? <==> d.Described? && v.Verified?
    ensures r.Aborted? <==> d.DescribeLocalState? || (d.Described? && v.VerifyLocalState?)
  {
    match d
    case DescribeLocalState => Aborted
    case DescribeFailed => Withheld
    case NotSupported => Withheld
    case Described => match v case VerifyLocalState => Aborted case VerifyFailed => Withheld case Verified => Cleared
  }

  // ---------------------------------------------------------------- the worker as an automaton

  datatype Stage =
    | Ready
    | MayDelete
    | Decided(verdict: Resource, begun: bool)
    | Gone

  /** A worker part-way through its claim: the ledger it read, and what it settled so far. */
  datatype Pass = Pass(snapshot: Ledger, results: Ledger, stage: Stage) {
    predicate AtOpenItem() { |results| < |snapshot| && snapshot[|results|].Open() }

    predicate Done() { |results| == |snapshot| && stage.Ready? }
  }

  function StartPass(l: Ledger): Pass { Pass(l, [], Ready) }

  datatype BeginReply = Acked | Ineligible | Lost

  datatype Deed =
    | Skip
    | Retain
    | Begin(reply: BeginReply)
    | Delete(recoverOnly: bool, verdict: Option<Resource>)
    | Complete(acked: bool)

  predicate Enabled(p: Pass, d: Deed) {
    && |p.results| < |p.snapshot|
    && match d
       case Skip => p.stage.Ready? && !p.AtOpenItem()
       case Retain => p.stage.Ready? && p.AtOpenItem()
       case Begin(_) => p.stage.Ready? && p.AtOpenItem() && AllConfirmed(p.results)
       case Delete(recoverOnly, verdict) =>
         && p.stage.MayDelete?
         && recoverOnly == p.snapshot[|p.results|].Running?
         && (verdict.Some? ==> !verdict.value.Open())
       case Complete(_) => p.stage.Decided?
  }

  /** What is recorded for an item whose answer was `verdict`. An item claimed as running may have
      been deleted by an earlier worker, so anything short of a confirmation is unknown. */
  function Recorded(item: Resource, verdict: Resource): Resource {
    if item.Running? && !verdict.Confirmed() then Unknown else verdict
  }

  function Settle(p: Pass, verdict: Resource, begun: bool): Pass
    requires |p.results| < |p.snapshot|
  {
    p.(stage := Decided(Recorded(p.snapshot[|p.results|], verdict), begun))
  }

  function Step(p: Pass, d: Deed): Pass
    requires Enabled(p, d)
  {
    match d
    case Skip => p.(results := p.results + [p.snapshot[|p.results|]])
    case Retain => Settle(p, Retained, false)
    case Begin(reply) =>
      if reply.Acked? then p.(stage := MayDelete)
      else if reply.Ineligible? then Settle(p, Retained, false)
      else p.(stage := Gone)
    case Delete(_, verdict) => if verdict.Some? then Settle(p, verdict.value, true) else p.(stage := Gone)
    case Complete(acked) =>
      if acked then p.(results := p.results + [p.stage.verdict], stage := Ready) else p.(stage := Gone)
  }

  /** The pass a log of deeds leads to, if the automaton allows every one of them. */
  function Replay(snapshot: Ledger, log: seq<Deed>): Option<Pass> {
    if log == [] then Some(StartPass(snapshot))
    else
      var p := Replay(snapshot, log[..|log| - 1]);
      if p.Some? && Enabled(p.value, log[|log| - 1]) then Some(Step(p.value, log[|log| - 1])) else None
  }

  // ---------------------------------------------------------------- the worker's code

  /** What the rest of the system says to one pass, by item. */
  datatype Io = Io(
    resolverLocalState: bool,
    resolved: bool,
    valid: nat -> bool,
    pastDeadline: nat -> bool,
    describe: nat -> Description,
    verify: nat -> Verification,
    begin: nat -> BeginReply,
    call: nat -> CallReply,
    interrupted: nat -> bool,
    complete: nat -> bool)

  /** The one deed this worker owes at this point, given what it is told. */
  predicate Owed(p: Pass, d: Deed, io: Io) {
    var i := |p.results|;
    var free := AllConfirmed(p.results) && !io.pastDeadline(i) && io.resolved;
    match d
    case Skip => true
    case Retain => !free || Inspect(io.describe(i), io.verify(i)).Withheld?
    case Begin(reply) => free && Inspect(io.describe(i), io.verify(i)).Cleared? && reply == io.begin(i)
    case Delete(_, verdict) => verdict == CallVerdict(io.call(i))
    case Complete(acked) => acked == io.complete(i)
  }

  /** Every deed of the log was allowed and owed when it was done. */
  predicate Obeys(snapshot: Ledger, log: seq<Deed>, io: Io) {
    log == [] ||
    (var p := Replay(snapshot, log[..|log| - 1]);
     && Obeys(snapshot, log[..|log| - 1], io)
     && p.Some? && Enabled(p.value, log[|log| - 1]) && Owed(p.value, log[|log| - 1], io))
  }

  lemma {:induction false} ObeysExtends(snapshot: Ledger, log: seq<Deed>, d: Deed, io: Io)
    requires Replay(snapshot, log).Some? && Obeys(snapshot, log, io)
    requires Enabled(Replay(snapshot, log).value, d) && Owed(Replay(snapshot, log).value, d, io)
    ensures Obeys(snapshot, log + [d], io) && Replay(snapshot, log + [d]) == Some(Step(Replay(snapshot, log).value, d))
  {
    assert (log + [d])[..|log|] == log;
  }

  /** Nothing of the worker's own, and no lost acknowledgement, cuts the sweep short. */
  predicate Undisturbed(n: nat, io: Io) {
    && n > 0 && !io.resolverLocalState
    && forall i :: 0 <= i < n ==> Steady(i, io)
  }

  predicate Steady(i: nat, io: Io) {
    && io.valid(i) && !Inspect(io.describe(i), io.verify(i)).Aborted? && !io.begin(i).Lost?
    && CallVerdict(io.call(i)).Some? && !io.interrupted(i) && io.complete(i)
  }

  datatype Outcome = Removed(effect: Effect) | FailedAt(first: nat)

  function EffectOf(o: Outcome): Effect { if o.Removed? then o.effect else CleanupFailed }

  /** The reported outcome is the ledger's own: the first unconfirmed resource decides a failure. */
  predicate Reports(o: Outcome, results: Ledger) {
    && EffectOf(o) == Aggregate(results)
    && (o.FailedAt? ==> o.first < |results| && !results[o.first].Confirmed() && AllConfirmed(results[..o.first]))
  }

  /** One item up to its decision. Nothing is called without this worker's own acknowledged intent. */
  method Decide(snapshot: Ledger, i: nat, unresolved: bool, io: Io, before: seq<Deed>)
    returns (verdict: Option<Resource>, log: seq<Deed>)
    requires i < |snapshot| && snapshot[i].Open()
    requires Replay(snapshot, before).Some? && Obeys(snapshot, before, io)
    requires var p := Replay(snapshot, before).value;
             p.stage.Ready? && |p.results| == i && unresolved == !AllConfirmed(p.results) && p.snapshot == snapshot
    ensures Replay(snapshot, log).Some? && Obeys(snapshot, log, io) && (Steady(i, io) ==> verdict.Some?)
    ensures var p, q := Replay(snapshot, before).value, Replay(snapshot, log).value;
            && q.snapshot == snapshot && q.results == p.results
            && (verdict.Some? ==> q.stage.Decided? && q.stage.verdict == verdict.value)
  {
    log, verdict := before, Some(Retained);
    if unresolved || io.pastDeadline(i) || !io.resolved {
      ObeysExtends(snapshot, log, Retain, io);
      log := log + [Retain];
    } else {
      var inspection := Inspect(io.describe(i), io.verify(i));
      if inspection.Aborted? { return None, log; }
      if inspection.Withheld? {
        ObeysExtends(snapshot, log, Retain, io);
        log := log + [Retain];
      } else {
        verdict, log := BeginAndDelete(snapshot, i, io, log);
        if verdict.None? { return; }
      }
    }
    if snapshot[i].Running? && !verdict.value.Confirmed() { verdict := Some(Unknown); }
  }

  /** The items decided so far and the claim are the same in both passes. */
  predicate SamePlace(p: Pass, q: Pass) { q.snapshot == p.snapshot && q.results == p.results }

  /** The intent, and the call only if this worker was told that its intent is durable. */
  method BeginAndDelete(snapshot: Ledger, i: nat, io: Io, before: seq<Deed>)
    returns (verdict: Option<Resource>, log: seq<Deed>)
    requires i < |snapshot| && Replay(snapshot, before).Some? && Obeys(snapshot, before, io)
    requires var p := Replay(snapshot, before).value;
             && p.snapshot == snapshot && |p.results| == i
             && Enabled(p, Begin(io.begin(i))) && Owed(p, Begin(io.begin(i)), io)
    ensures Replay(snapshot, log).Some? && Obeys(snapshot, log, io) && (Steady(i, io) ==> verdict.Some?)
    ensures var p, q := Replay(snapshot, before).value, Replay(snapshot, log).value;
            && SamePlace(p, q)
            && (verdict.Some? ==> q.stage.Decided? && q.stage.verdict == Recorded(snapshot[i], verdict.value))
  {
    var intent := Begin(io.begin(i));
    ObeysExtends(snapshot, before, intent, io);
    log := before + [intent];
    if io.begin(i).Lost? { return None, log; }
    if !io.begin(i).Acked? { return Some(Retained), log; }
    verdict := CallVerdict(io.call(i));
    var deletion := Delete(snapshot[i].Running?, verdict);
    ObeysExtends(snapshot, log, deletion, io);
    log := log + [deletion];
  }

  /** The sweep over a claimed ledger. Either it stops early, leaving the claim for recovery, or
      it settles every item and reports their aggregate. */
  method ApplyResources(snapshot: Ledger, io: Io) returns (outcome: Option<Outcome>, log: seq<Deed>)
    ensures Replay(snapshot, log).Some? && Obeys(snapshot, log, io)
    ensures Undisturbed(|snapshot|, io) ==> outcome.Some?
    ensures outcome.Some? ==>
              && Replay(snapshot, log).value.Done()
              && Reports(outcome.value, Replay(snapshot, log).value.results)
  {
    log, outcome := [], None;
    if snapshot == [] { return; }
    var needsProvider := exists k :: 0 <= k < |snapshot| && snapshot[k].Open();
    if needsProvider && io.resolverLocalState { return; }
    var allAbsent, unresolved := true, false;
    var first: Option<nat> := None;
    ghost var results: Ledger := [];
    for i := 0 to |snapshot|
      invariant Replay(snapshot, log) == Some(Pass(snapshot, results, Ready)) && Obeys(snapshot, log, io)
      invariant |results| == i
      invariant unresolved == !AllConfirmed(results) == first.Some?
      invariant allAbsent == AllAbsent(results)
      invariant first.Some? ==>
                  first.value < i && !results[first.value].Confirmed() && AllConfirmed(results[..first.value])
    {
      assert Undisturbed(|snapshot|, io) ==> Steady(i, io);
      if !io.valid(i) { return; }
      var state := snapshot[i];
      if state.Open() {
        var verdict;
        verdict, log := Decide(snapshot, i, unresolved, io, log);
        if verdict.None? || io.interrupted(i) { return; }
        state := verdict.value;
        ObeysExtends(snapshot, log, Complete(io.complete(i)), io);
        log := log + [Complete(io.complete(i))];
        if !io.complete(i) { return; }
      } else {
        ObeysExtends(snapshot, log, Skip, io);
        log := log + [Skip];
      }
      Extend(results, state);
      if !state.Confirmed() {
        if first.None? { first := Some(i); }
        unresolved := true;
      }
      allAbsent := allAbsent && state.Absent?;
      results := results + [state];
    }
    if first.Some? { return Some(FailedAt(first.value)), log; }
    return Some(Removed(if allAbsent then AlreadyAbsent else RemoteDeleted)), log;
  }

  lemma {:induction false} Extend(l: Ledger, r: Resource)
    ensures AllConfirmed(l + [r]) == (AllConfirmed(l) && r.Confirmed())
    ensures AllAbsent(l + [r]) == (AllAbsent(l) && r.Absent?)
    ensures forall k :: 0 <= k <= |l| ==> (l + [r])[..k] == l[..k]
    ensures l[..|l|] == l
  {
    var m := l + [r];
    assert m[|l|] == r && forall k :: 0 <= k < |l| ==> m[k] == l[k];
  }

  // ---------------------------------------------------------------- what a sweep does to each item

  /** Nothing but an earlier item stands between this one and its deletion. */
  predicate Clear(io: Io, i: nat) {
    io.resolved && !io.pastDeadline(i) && io.describe(i).Described? && io.verify(i).Verified?
  }

  lemma {:induction false} PermitIsClear(snapshot: Ledger, log: seq<Deed>, io: Io)
    requires Obeys(snapshot, log, io)
    ensures Replay(snapshot, log).Some?
    ensures var p := Replay(snapshot, log).value;
            && p.snapshot == snapshot && |p.results| <= |snapshot|
            && (p.stage.MayDelete? ==>
                  |p.results| < |snapshot| && Clear(io, |p.results|) && io.begin(|p.results|).Acked? && AllConfirmed(p.results) && p.AtOpenItem())
  {
    if log != [] { PermitIsClear(snapshot, log[..|log| - 1], io); }
  }

  /** Whatever the sweep: an intent or a call for an item only if it was open, described and verified,
      before the deadline, with every earlier item confirmed; a call only under its own intent. */
  lemma {:induction false} ActsOnlyWhenClear(snapshot: Ledger, log: seq<Deed>, io: Io, k: nat)
    requires Obeys(snapshot, log, io) && k < |log| && (log[k].Begin? || log[k].Delete?)
    ensures Replay(snapshot, log[..k]).Some?
    ensures var p := Replay(snapshot, log[..k]).value;
            && |p.results| < |snapshot| && snapshot[|p.results|].Open() && Clear(io, |p.results|) && AllConfirmed(p.results)
            && (log[k].Delete? ==>
                  && io.begin(|p.results|).Acked? && log[k].verdict == CallVerdict(io.call(|p.results|))
                  && (log[k].recoverOnly <==> snapshot[|p.results|].Running?))
  {
    if k == |log| - 1 {
      PermitIsClear(snapshot, log[..k], io);
    } else {
      ActsOnlyWhenClear(snapshot, log[..|log| - 1], io, k);
      assert log[..|log| - 1][..k] == log[..k];
    }
  }

  /** What becomes of one item: settled ones stay, cleared ones end as the call says, all others are
      retained; but of one that was already running only a confirmation is believed. */
  predicate EndsAs(item: Resource, io: Io, i: nat, earlierConfirmed: bool, r: Resource) {
    if !item.Open() then r == item
    else if earlierConfirmed && Clear(io, i) && io.begin(i).Acked? then
      && CallVerdict(io.call(i)).Some?
      && var v := CallVerdict(io.call(i)).value;
         r == if item.Running? && v != Deleted && v != Absent then Unknown else v
    else r == if item.Running? then Unknown else Retained
  }

  predicate ResultsEarned(p: Pass, io: Io) {
    && |p.results| <= |p.snapshot|
    && (forall i :: 0 <= i < |p.results| ==> EndsAs(p.snapshot[i], io, i, AllConfirmed(p.results[..i]), p.results[i]))
    && (p.stage.Decided? ==>
          && p.AtOpenItem()
          && EndsAs(p.snapshot[|p.results|], io, |p.results|, AllConfirmed(p.results), p.stage.verdict))
  }

  lemma {:induction false} ResultAdded(p: Pass, io: Io, r: Resource)
    requires ResultsEarned(p, io) && |p.results| < |p.snapshot|
    requires EndsAs(p.snapshot[|p.results|], io, |p.results|, AllConfirmed(p.results), r)
    ensures ResultsEarned(p.(results := p.results + [r], stage := Ready), io)
  {
    Extend(p.results, r);
    var all := p.results + [r];
    forall i | 0 <= i < |all| ensures EndsAs(p.snapshot[i], io, i, AllConfirmed(all[..i]), all[i]) {
      assert all[..i] == p.results[..i];
    }
  }

  lemma {:induction false} StepEarns(p: Pass, d: Deed, io: Io)
    requires ResultsEarned(p, io) && Enabled(p, d) && Owed(p, d, io)
    requires p.stage.MayDelete? ==> Clear(io, |p.results|) && io.begin(|p.results|).Acked? && AllConfirmed(p.results) && p.AtOpenItem()
    ensures ResultsEarned(Step(p, d), io)
  {
    match d
    case Skip =>
      ResultAdded(p, io, p.snapshot[|p.results|]);
      assert Step(p, d) == p.(results := p.results + [p.snapshot[|p.results|]], stage := Ready);
    case Complete(acked) => if acked { ResultAdded(p, io, p.stage.verdict); }
    case _ =>
  }

  /** Every result of a sweep is what its item's answers call for, and the order of the items. */
  lemma {:induction false} ResultsAreEarned(snapshot: Ledger, log: seq<Deed>, io: Io)
    requires Obeys(snapshot, log, io)
    ensures Replay(snapshot, log).Some? && Replay(snapshot, log).value.snapshot == snapshot
    ensures ResultsEarned(Replay(snapshot, log).value, io)
  {
    PermitIsClear(snapshot, log, io);
    if log != [] {
      ResultsAreEarned(snapshot, log[..|log| - 1], io);
      PermitIsClear(snapshot, log[..|log| - 1], io);
      StepEarns(Replay(snapshot, log[..|log| - 1]).value, log[|log| - 1], io);
    }
  }
}
