/** Runs of one cleanup operation: workers claim it under fenced leases, are overtaken, crash or
    lose acknowledgements at any point, and the store may close it as no longer eligible. */
module CleanupRun {
  import opened Optional
  import opened Cleanup

  datatype Status = Accepted | Active | Finished(effect: Effect) | ClosedIneligible

  datatype Claim = Claim(generation: nat, pass: Pass)

  /** A call on the provider, with the durable ledger it was made under. */
  datatype Call = Call(item: nat, destructive: bool, ledger: Ledger)

  datatype World = World(
    ledger: Ledger,
    status: Status,
    generation: nat,
    claims: map<nat, Claim>,
    calls: seq<Call>,
    recovered: set<nat>)

  datatype Event =
    | TakeClaim(worker: nat)
    | CloseClaim
    | Act(worker: nat, deed: Deed, durable: bool)
    | Finish(worker: nat)
    | Crash(worker: nat)

  /** Rows start pending, or confirmed where an earlier operation already confirmed the target, or
      running where intents were not yet kept per resource; the model admits any rows. */
  function Opened(ledger: Ledger): World { World(ledger, Accepted, 0, map[], [], {}) }

  predicate Unclosed(w: World) { w.status.Accepted? || w.status.Active? }

  predicate Live(w: World, c: Claim) { w.status.Active? && c.generation == w.generation }

  function RunningItems(l: Ledger): set<nat> { set k: nat | k < |l| && l[k].Running? }

  function DoClaim(w: World, worker: nat): World {
    if !Unclosed(w) then w
    else w.(status := Active, generation := w.generation + 1,
            claims := w.claims[worker := Claim(w.generation + 1, StartPass(w.ledger))],
            recovered := w.recovered + RunningItems(w.ledger))
  }

  function Shut(r: Resource): Resource { if r.Running? then Unknown else if r.Pending? then Retained else r }

  function DoClose(w: World): World {
    if !Unclosed(w) then w
    else w.(status := ClosedIneligible, ledger := seq(|w.ledger|, k requires 0 <= k < |w.ledger| => Shut(w.ledger[k])))
  }

  /** A confirmed result needs a recorded intent. */
  predicate Accepts(row: Resource, v: Resource) { if v.Confirmed() then row.Running? else row.Open() }

  function With(w: World, worker: nat, p: Pass): World
    requires worker in w.claims
  {
    w.(claims := w.claims[worker := w.claims[worker].(pass := p)])
  }

  function Put(w: World, i: nat, r: Resource): World
    requires i < |w.ledger|
  {
    w.(ledger := w.ledger[i := r])
  }

  function DoAct(w: World, worker: nat, d: Deed, durable: bool): World {
    if worker !in w.claims || !Enabled(w.claims[worker].pass, d) then w else
    var c := w.claims[worker];
    var i, next := |c.pass.results|, Step(c.pass, d);
    if i >= |w.ledger| then w else
    match d
    case Skip => With(w, worker, next)
    case Retain => With(w, worker, next)
    case Delete(recoverOnly, _) =>
      With(w, worker, next).(calls := w.calls + [Call(i, !recoverOnly, w.ledger)])
    case Begin(reply) =>
      var stored := Live(w, c) && w.ledger[i].Open();
      if reply.Acked? then (if stored then With(Put(w, i, Running), worker, next) else w)
      else if reply.Ineligible? then (if Live(w, c) then With(w, worker, next) else w)
      else if stored && durable then With(Put(w, i, Running), worker, next)
      else With(w, worker, next)
    case Complete(acked) =>
      var v := c.pass.stage.verdict;
      var stored := Live(w, c) && Accepts(w.ledger[i], v);
      if acked then (if stored then With(Put(w, i, v), worker, next) else w)
      else if stored && durable then With(Put(w, i, v), worker, next)
      else With(w, worker, next)
  }

  /** The store re-derives the aggregate from its own rows before it closes the operation. */
  predicate StoreAgrees(l: Ledger, e: Effect) {
    var anyDeleted := exists k :: 0 <= k < |l| && l[k].Deleted?;
    && AllSettled(l)
    && (!e.CleanupFailed? ==> AllConfirmed(l))
    && (l != [] ==> (AllConfirmed(l) <==> !e.CleanupFailed?) && (AllConfirmed(l) ==> (anyDeleted <==> e.RemoteDeleted?)))
  }

  function DoFinish(w: World, worker: nat): World {
    if worker !in w.claims || !w.claims[worker].pass.Done() || !Live(w, w.claims[worker]) then w else
    var e := Aggregate(w.claims[worker].pass.results);
    if StoreAgrees(w.ledger, e) then w.(status := Finished(e)) else w
  }

  function Do(w: World, e: Event): World {
    match e
    case TakeClaim(worker) => DoClaim(w, worker)
    case CloseClaim => DoClose(w)
    case Act(worker, d, durable) => DoAct(w, worker, d, durable)
    case Finish(worker) => DoFinish(w, worker)
    case Crash(worker) => w.(claims := w.claims - {worker})
  }

  function Run(ledger: Ledger, es: seq<Event>): World {
    if es == [] then Opened(ledger) else Do(Run(ledger, es[..|es| - 1]), es[|es| - 1])
  }

  // ---------------------------------------------------------------- the invariant

  /** What the automaton alone guarantees of a pass. */
  predicate Sound(p: Pass, n: nat) {
    && |p.snapshot| == n && |p.results| <= n
    && AllSettled(p.results)
    && (p.stage.MayDelete? ==> p.AtOpenItem() && AllConfirmed(p.results))
    && (p.stage.Decided? ==>
          && p.AtOpenItem() && !p.stage.verdict.Open()
          && (p.stage.verdict.Confirmed() ==> p.stage.begun)
          && (p.snapshot[|p.results|].Running? ==> p.stage.verdict.Confirmed() || p.stage.verdict.Unknown?))
  }

  predicate Begun(p: Pass) { p.stage.MayDelete? || (p.stage.Decided? && p.stage.begun) }

  /** While its lease is current a worker knows the whole ledger. */
  predicate Knows(p: Pass, l: Ledger)
    requires Sound(p, |l|)
  {
    p.stage.Gone? ||
    (forall k :: 0 <= k < |l| ==>
       l[k] == if k < |p.results| then p.results[k] else if k == |p.results| && Begun(p) then Running else p.snapshot[k])
  }

  /** How a row may change: never back to pending, and not at all once settled. */
  predicate Later(was: Resource, now: Resource) {
    if was.Pending? then true else if was.Running? then !now.Pending? else now == was
  }

  /** However stale its lease, confirmed results a worker stored are still there, and the rows it
      read have only moved on. */
  predicate Remembers(p: Pass, l: Ledger)
    requires Sound(p, |l|)
  {
    && (forall k :: 0 <= k < |p.results| && p.results[k].Confirmed() ==> l[k] == p.results[k])
    && (forall k :: 0 <= k < |l| ==> Later(p.snapshot[k], l[k]))
  }

  /** Holds the one permit for a first, destructive call on its current item. */
  predicate Armed(p: Pass) { p.stage.MayDelete? && p.AtOpenItem() && p.snapshot[|p.results|].Pending? }

  predicate ClaimsSound(w: World) {
    && (forall k :: k in w.claims ==> Sound(w.claims[k].pass, |w.ledger|) && w.claims[k].generation <= w.generation)
    && (forall k, m :: k in w.claims && m in w.claims && k != m ==> w.claims[k].generation != w.claims[m].generation)
  }

  predicate ClaimsInformed(w: World)
    requires ClaimsSound(w)
  {
    && (forall k :: k in w.claims ==> Remembers(w.claims[k].pass, w.ledger))
    && (forall k :: k in w.claims && Live(w, w.claims[k]) ==> Knows(w.claims[k].pass, w.ledger))
    && (forall k, i :: k in w.claims && Live(w, w.claims[k]) && i in w.recovered && i < |w.ledger| ==>
          !w.claims[k].pass.snapshot[i].Pending?)
  }

  predicate OneDestructiveCallEach(calls: seq<Call>) {
    forall a, b :: 0 <= a < b < |calls| && calls[a].destructive && calls[b].destructive ==> calls[a].item != calls[b].item
  }

  predicate CallsInOrder(calls: seq<Call>) {
    forall a :: 0 <= a < |calls| ==>
      && calls[a].item < |calls[a].ledger|
      && !calls[a].ledger[calls[a].item].Pending?
      && AllConfirmed(calls[a].ledger[..calls[a].item])
  }

  /** A destructive call, made or about to be made, leaves the row past pending for good. */
  predicate CallsGuarded(w: World)
    requires ClaimsSound(w)
  {
    && (forall a :: 0 <= a < |w.calls| && w.calls[a].destructive ==>
          w.calls[a].item < |w.ledger| && !w.ledger[w.calls[a].item].Pending?)
    && (forall k :: k in w.claims && Armed(w.claims[k].pass) ==> !w.ledger[|w.claims[k].pass.results|].Pending?)
    && (forall k, a :: k in w.claims && Armed(w.claims[k].pass) && 0 <= a < |w.calls| && w.calls[a].destructive ==>
          w.calls[a].item != |w.claims[k].pass.results|)
    && (forall k, m :: k in w.claims && m in w.claims && Armed(w.claims[k].pass) && Armed(w.claims[m].pass) && k != m ==>
          |w.claims[k].pass.results| != |w.claims[m].pass.results|)
  }

  predicate RecoveredHeld(w: World) {
    forall i :: i in w.recovered ==>
      i < |w.ledger| && (w.ledger[i].Running? || w.ledger[i].Confirmed() || w.ledger[i].Unknown?)
  }

  predicate StatusTold(w: World) {
    match w.status
    case Accepted => w.claims == map[]
    case Active => true
    case Finished(e) => AllSettled(w.ledger) && e == Aggregate(w.ledger)
    case ClosedIneligible => AllSettled(w.ledger)
  }

  predicate Inv(w: World) {
    && ClaimsSound(w) && ClaimsInformed(w) && CallsGuarded(w)
    && OneDestructiveCallEach(w.calls) && CallsInOrder(w.calls)
    && RecoveredHeld(w) && StatusTold(w)
  }

  // ---------------------------------------------------------------- every event keeps it

  lemma {:induction false} StepIsSound(p: Pass, d: Deed, n: nat)
    requires Sound(p, n) && Enabled(p, d)
    ensures Sound(Step(p, d), n)
    ensures Armed(Step(p, d)) ==> d == Begin(Acked)
  {
    assert p.AtOpenItem() ==> |p.results| < n;
  }

  /** The worker moves and the ledger does not. */
  lemma {:induction false} MoveKeeps(w: World, worker: nat, p: Pass)
    requires Inv(w) && worker in w.claims
    requires Sound(p, |w.ledger|) && Remembers(p, w.ledger) && !Armed(p) && p.snapshot == w.claims[worker].pass.snapshot
    requires Live(w, w.claims[worker]) ==> Knows(p, w.ledger)
    ensures Inv(With(w, worker, p))
  {
  }

  /** The worker stores a row it still holds the lease for. */
  predicate Storable(w: World, worker: nat, r: Resource, p: Pass) {
    && worker in w.claims && Live(w, w.claims[worker])
    && p.snapshot == w.claims[worker].pass.snapshot
    && var i := |w.claims[worker].pass.results|;
    && i < |w.ledger| && w.ledger[i].Open() && !r.Pending?
    && Sound(p, |w.ledger|) && Remembers(p, w.ledger[i := r]) && Knows(p, w.ledger[i := r])
    && (i in w.recovered ==> r.Running? || r.Confirmed() || r.Unknown?)
    && (Armed(p) ==> |p.results| == i && w.ledger[i].Pending?)
  }

  function Store(w: World, worker: nat, r: Resource, p: Pass): World
    requires worker in w.claims && |w.claims[worker].pass.results| < |w.ledger|
  {
    With(Put(w, |w.claims[worker].pass.results|, r), worker, p)
  }

  lemma {:induction false} StoreInforms(w: World, worker: nat, r: Resource, p: Pass)
    requires ClaimsSound(w) && ClaimsInformed(w) && Storable(w, worker, r, p)
    ensures ClaimsSound(Store(w, worker, r, p)) && ClaimsInformed(Store(w, worker, r, p))
  {
    var w' := Store(w, worker, r, p);
    forall k | k in w'.claims
      ensures Remembers(w'.claims[k].pass, w'.ledger)
    {
      if k != worker { assert Remembers(w.claims[k].pass, w.ledger); }
    }
  }

  lemma {:induction false} StoreGuards(w: World, worker: nat, r: Resource, p: Pass)
    requires ClaimsSound(w) && CallsGuarded(w) && Storable(w, worker, r, p)
    ensures ClaimsSound(Store(w, worker, r, p)) && CallsGuarded(Store(w, worker, r, p))
  {
  }

  lemma {:induction false} StoreKeeps(w: World, worker: nat, r: Resource, p: Pass)
    requires Inv(w) && Storable(w, worker, r, p)
    ensures Inv(Store(w, worker, r, p))
  {
    StoreInforms(w, worker, r, p);
    StoreGuards(w, worker, r, p);
  }

  lemma {:induction false} CallGuards(w: World, worker: nat, call: Call)
    requires ClaimsSound(w) && CallsGuarded(w) && worker in w.claims && !Armed(w.claims[worker].pass)
    requires call.destructive ==>
               && call.item < |w.ledger| && !w.ledger[call.item].Pending?
               && (forall k :: k in w.claims && Armed(w.claims[k].pass) ==> |w.claims[k].pass.results| != call.item)
               && (forall a :: 0 <= a < |w.calls| && w.calls[a].destructive ==> w.calls[a].item != call.item)
    requires OneDestructiveCallEach(w.calls)
    ensures CallsGuarded(w.(calls := w.calls + [call])) && OneDestructiveCallEach(w.calls + [call])
  {
  }

  /** A stale worker may still call, but what it relies on is already settled for good. */
  lemma {:induction false} CallIsInOrder(w: World, worker: nat, d: Deed)
    requires ClaimsSound(w) && ClaimsInformed(w) && CallsGuarded(w) && CallsInOrder(w.calls)
    requires worker in w.claims && d.Delete? && Enabled(w.claims[worker].pass, d)
    ensures var i := |w.claims[worker].pass.results|;
            && i < |w.ledger| && !w.ledger[i].Pending?
            && CallsInOrder(w.calls + [Call(i, !d.recoverOnly, w.ledger)])
  {
    var p := w.claims[worker].pass;
    var i := |p.results|;
    assert Remembers(p, w.ledger);
    assert !w.ledger[i].Pending? by {
      assert Later(p.snapshot[i], w.ledger[i]);
      assert p.snapshot[i].Pending? ==> Armed(p);
    }
    assert AllConfirmed(w.ledger[..i]);
  }

  lemma {:induction false} DeleteKeeps(w: World, worker: nat, d: Deed, durable: bool)
    requires Inv(w) && worker in w.claims && d.Delete? && Enabled(w.claims[worker].pass, d)
    ensures Inv(DoAct(w, worker, d, durable))
  {
    var p := w.claims[worker].pass;
    var call := Call(|p.results|, !d.recoverOnly, w.ledger);
    StepIsSound(p, d, |w.ledger|);
    MoveKeeps(w, worker, Step(p, d));
    CallIsInOrder(w, worker, d);
    assert call.destructive ==> Armed(p);
    var w1 := With(w, worker, Step(p, d));
    CallGuards(w1, worker, call);
    CalledKeeps(w1, call);
  }

  lemma {:induction false} CalledKeeps(w: World, call: Call)
    requires Inv(w) && !w.status.Accepted?
    requires CallsGuarded(w.(calls := w.calls + [call])) && OneDestructiveCallEach(w.calls + [call])
    requires CallsInOrder(w.calls + [call])
    ensures Inv(w.(calls := w.calls + [call]))
  {
  }

  lemma {:induction false} BeginKeeps(w: World, worker: nat, d: Deed, durable: bool)
    requires Inv(w) && worker in w.claims && d.Begin? && Enabled(w.claims[worker].pass, d)
    ensures Inv(DoAct(w, worker, d, durable))
  {
    var p := w.claims[worker].pass;
    StepIsSound(p, d, |w.ledger|);
    var stored := Live(w, w.claims[worker]) && w.ledger[|p.results|].Open();
    if stored && (d.reply.Acked? || (d.reply.Lost? && durable)) {
      StoreKeeps(w, worker, Running, Step(p, d));
    } else if !d.reply.Acked? {
      MoveKeeps(w, worker, Step(p, d));
    }
  }

  lemma {:induction false} CompleteKeeps(w: World, worker: nat, d: Deed, durable: bool)
    requires Inv(w) && worker in w.claims && d.Complete? && Enabled(w.claims[worker].pass, d)
    ensures Inv(DoAct(w, worker, d, durable))
  {
    var p := w.claims[worker].pass;
    StepIsSound(p, d, |w.ledger|);
    var stored := Live(w, w.claims[worker]) && Accepts(w.ledger[|p.results|], p.stage.verdict);
    if stored && (d.acked || durable) {
      StoreKeeps(w, worker, p.stage.verdict, Step(p, d));
    } else if !d.acked {
      MoveKeeps(w, worker, Step(p, d));
    }
  }

  lemma {:induction false} ActKeeps(w: World, worker: nat, d: Deed, durable: bool)
    requires Inv(w)
    ensures Inv(DoAct(w, worker, d, durable))
  {
    if worker in w.claims && Enabled(w.claims[worker].pass, d) {
      var p := w.claims[worker].pass;
      match d
      case Begin(_) => BeginKeeps(w, worker, d, durable);
      case Complete(_) => CompleteKeeps(w, worker, d, durable);
      case Delete(_, _) => DeleteKeeps(w, worker, d, durable);
      case _ =>
        StepIsSound(p, d, |w.ledger|);
        MoveKeeps(w, worker, Step(p, d));
    }
  }

  lemma {:induction false} ClaimRemembers(w: World, worker: nat)
    requires ClaimsSound(w) && ClaimsInformed(w) && Unclosed(w)
    ensures var w' := DoClaim(w, worker);
            ClaimsSound(w') && forall k :: k in w'.claims ==> Remembers(w'.claims[k].pass, w'.ledger)
  {
    var w' := DoClaim(w, worker);
    forall k | k in w'.claims
      ensures Remembers(w'.claims[k].pass, w'.ledger)
    {
      if k != worker { assert Remembers(w.claims[k].pass, w.ledger); }
    }
  }

  lemma {:induction false} ClaimInforms(w: World, worker: nat)
    requires ClaimsSound(w) && ClaimsInformed(w) && RecoveredHeld(w) && Unclosed(w)
    ensures ClaimsSound(DoClaim(w, worker)) && ClaimsInformed(DoClaim(w, worker))
  {
    var w' := DoClaim(w, worker);
    ClaimRemembers(w, worker);
    assert forall k :: k in w'.claims && Live(w', w'.claims[k]) ==> k == worker;
    assert w'.claims[worker].pass.snapshot == w.ledger;
    assert forall i :: i in w'.recovered ==> i < |w.ledger| && !w.ledger[i].Pending?;
  }

  lemma {:induction false} ClaimGuards(w: World, worker: nat)
    requires ClaimsSound(w) && CallsGuarded(w) && Unclosed(w)
    ensures ClaimsSound(DoClaim(w, worker)) && CallsGuarded(DoClaim(w, worker))
  {
  }

  lemma {:induction false} ClaimKeeps(w: World, worker: nat)
    requires Inv(w)
    ensures Inv(DoClaim(w, worker))
  {
    if Unclosed(w) {
      ClaimInforms(w, worker);
      ClaimGuards(w, worker);
    }
  }

  lemma {:induction false} CloseKeeps(w: World)
    requires Inv(w)
    ensures Inv(DoClose(w))
  {
    var w' := DoClose(w);
    assert forall k :: 0 <= k < |w.ledger| ==> Later(w.ledger[k], w'.ledger[k]);
    forall k | k in w'.claims
      ensures Remembers(w'.claims[k].pass, w'.ledger)
    {
      assert Remembers(w.claims[k].pass, w.ledger);
    }
  }

  lemma {:induction false} FinishKeeps(w: World, worker: nat)
    requires Inv(w)
    ensures Inv(DoFinish(w, worker))
  {
  }

  lemma {:induction false} CrashKeeps(w: World, worker: nat)
    requires Inv(w)
    ensures Inv(w.(claims := w.claims - {worker}))
  {
  }

  lemma {:induction false} DoKeeps(w: World, e: Event)
    requires Inv(w)
    ensures Inv(Do(w, e))
  {
    match e
    case TakeClaim(worker) => ClaimKeeps(w, worker);
    case CloseClaim => CloseKeeps(w);
    case Act(worker, d, durable) => ActKeeps(w, worker, d, durable);
    case Finish(worker) => FinishKeeps(w, worker);
    case Crash(worker) => CrashKeeps(w, worker);
  }

  lemma {:induction false} RunKeeps(ledger: Ledger, es: seq<Event>)
    ensures Inv(Run(ledger, es))
  {
    if es != [] {
      RunKeeps(ledger, es[..|es| - 1]);
      DoKeeps(Run(ledger, es[..|es| - 1]), es[|es| - 1]);
    }
  }

  // ---------------------------------------------------------------- what every run guarantees

  /** Over every run with crashes, lost acknowledgements and takeovers: each resource gets at most
      one destructive call; no resource is called while an earlier one is durably unconfirmed, nor
      before its own intent is durable; a resource recovered as running ends deleted, absent or
      unknown. */
  lemma {:induction false} CleanupIsSafe(ledger: Ledger, es: seq<Event>)
    ensures var w := Run(ledger, es);
            && OneDestructiveCallEach(w.calls) && CallsInOrder(w.calls)
            && (forall k :: k in w.recovered ==>
                  k < |w.ledger| && (w.ledger[k].Running? || w.ledger[k].Deleted? || w.ledger[k].Absent? || w.ledger[k].Unknown?))
  {
    RunKeeps(ledger, es);
  }

  predicate Closed(w: World) { w.status.Finished? || w.status.ClosedIneligible? }

  predicate Success(w: World) { w.status.Finished? && !w.status.effect.CleanupFailed? }

  /** A closed operation reports its ledger: success exactly when every resource is confirmed and
      the store did not close it as ineligible; already absent exactly when, besides, all are absent. */
  lemma {:induction false} OutcomeIsTheLedgers(ledger: Ledger, es: seq<Event>)
    ensures var w := Run(ledger, es);
            Closed(w) ==>
              && AllSettled(w.ledger)
              && (Success(w) <==> AllConfirmed(w.ledger) && !w.status.ClosedIneligible?)
              && (w.status == Finished(AlreadyAbsent) <==> AllAbsent(w.ledger) && !w.status.ClosedIneligible?)
  {
    RunKeeps(ledger, es);
  }

  /** Closing as ineligible is the one way a confirmed ledger is reported as a failure: here the
      worker that deleted the only resource crashes before it finishes the operation. */
  lemma {:induction false} ConfirmedYetIneligible()
    ensures var w := Run([Pending],
                         [TakeClaim(0), Act(0, Begin(Acked), true), Act(0, Delete(false, Some(Deleted)), true),
                          Act(0, Complete(true), true), Crash(0), CloseClaim]);
            Closed(w) && AllConfirmed(w.ledger) && !Success(w)
  {
    InOrder([Pending], TakeClaim(0), Act(0, Begin(Acked), true), Act(0, Delete(false, Some(Deleted)), true),
            Act(0, Complete(true), true), Crash(0), CloseClaim);
    var w := SoleDeletion(Opened([Pending]));
    ClosedOverConfirmed(w);
  }

  lemma {:induction false} ClosedOverConfirmed(w: World)
    requires Unclosed(w) && w.ledger == [Deleted]
    ensures var w' := Do(Do(w, Crash(0)), CloseClaim); Closed(w') && AllConfirmed(w'.ledger) && !Success(w')
  {
  }

  lemma {:induction false} InOrder(l: Ledger, a: Event, b: Event, c: Event, d: Event, e: Event, f: Event)
    ensures Run(l, [a, b, c, d, e, f]) == Do(Do(Do(Do(Do(Do(Opened(l), a), b), c), d), e), f)
  {
    var es := [a, b, c, d, e, f];
    assert es[..5] == [a, b, c, d, e] && es[..5][..4] == [a, b, c, d] && [a, b, c, d][..3] == [a, b, c];
    assert [a, b, c][..2] == [a, b] && [a, b][..1] == [a] && [a][..0] == [];
    assert Run(l, [a]) == Do(Opened(l), a);
    assert Run(l, [a, b]) == Do(Run(l, [a]), b);
    assert Run(l, [a, b, c]) == Do(Run(l, [a, b]), c);
    assert Run(l, [a, b, c, d]) == Do(Run(l, [a, b, c]), d);
    assert Run(l, [a, b, c, d, e]) == Do(Run(l, [a, b, c, d]), e);
  }

  /** The only resource is claimed, begun, deleted and recorded. */
  lemma {:induction false} SoleDeletion(w: World) returns (w4: World)
    requires w == Opened([Pending])
    ensures w4 == DoAct(DoAct(DoAct(DoClaim(w, 0), 0, Begin(Acked), true), 0, Delete(false, Some(Deleted)), true), 0, Complete(true), true)
    ensures w4.ledger == [Deleted] && Unclosed(w4)
  {
    var w1 := DoClaim(w, 0);
    assert w1.claims[0].pass == Pass([Pending], [], Ready);
    var w2 := DoAct(w1, 0, Begin(Acked), true);
    assert w2.claims[0].pass == Pass([Pending], [], MayDelete) && w2.ledger == [Running];
    var w3 := DoAct(w2, 0, Delete(false, Some(Deleted)), true);
    assert w3.claims[0].pass == Pass([Pending], [], Decided(Deleted, true)) && w3.ledger == [Running];
    w4 := DoAct(w3, 0, Complete(true), true);
  }

  /** The store's own guards never refuse the worker that holds the lease: its begin finds an open
      row, its verdict an acceptable one, and its aggregate is the one the rows give. */
  lemma {:induction false} LiveWorkerIsNeverRefused(ledger: Ledger, es: seq<Event>, worker: nat)
    requires var w := Run(ledger, es); worker in w.claims && Live(w, w.claims[worker])
    ensures var w := Run(ledger, es);
            var p := w.claims[worker].pass;
            && (Enabled(p, Begin(Acked)) ==> |p.results| < |w.ledger| && w.ledger[|p.results|].Open())
            && (Enabled(p, Complete(true)) ==> |p.results| < |w.ledger| && Accepts(w.ledger[|p.results|], p.stage.verdict))
            && (p.Done() ==> StoreAgrees(w.ledger, Aggregate(p.results)) && w.ledger == p.results)
  {
    RunKeeps(ledger, es);
    var w := Run(ledger, es);
    var p := w.claims[worker].pass;
    assert Knows(p, w.ledger);
    if p.Done() { assert w.ledger == p.results; }
  }

  /** Settled rows, closed operations and the record of calls are final. */
  predicate MovesOn(w: World, w': World) {
    && |w'.ledger| == |w.ledger|
    && (forall k :: 0 <= k < |w.ledger| ==> Later(w.ledger[k], w'.ledger[k]))
    && w.calls <= w'.calls
    && (Closed(w) ==> w'.status == w.status)
  }

  lemma {:induction false} DoMovesOn(w: World, e: Event)
    requires ClaimsSound(w)
    ensures MovesOn(w, Do(w, e))
  {
  }

  lemma {:induction false} MovesOnAgain(a: World, b: World, c: World)
    requires MovesOn(a, b) && MovesOn(b, c)
    ensures MovesOn(a, c)
  {
  }

  lemma {:induction false} StepMovesOn(ledger: Ledger, es: seq<Event>, e: Event)
    ensures MovesOn(Run(ledger, es), Run(ledger, es + [e]))
  {
    RunKeeps(ledger, es);
    assert (es + [e])[..|es|] == es;
    DoMovesOn(Run(ledger, es), e);
  }

  lemma {:induction false} RunMovesOn(ledger: Ledger, es: seq<Event>, more: seq<Event>)
    ensures MovesOn(Run(ledger, es), Run(ledger, es + more))
    decreases |more|
  {
    if more == [] {
      assert es + more == es;
    } else {
      StepMovesOn(ledger, es, more[0]);
      RunMovesOn(ledger, es + [more[0]], more[1..]);
      assert es + [more[0]] + more[1..] == es + more;
      MovesOnAgain(Run(ledger, es), Run(ledger, es + [more[0]]), Run(ledger, es + more));
    }
  }

  // ---------------------------------------------------------------- a sweep finishes the operation

  function Acts(worker: nat, log: seq<Deed>): seq<Event> {
    if log == [] then [] else Acts(worker, log[..|log| - 1]) + [Act(worker, log[|log| - 1], true)]
  }

  lemma {:induction false} OneMore(ledger: Ledger, es: seq<Event>, e: Event)
    ensures Run(ledger, es + [e]) == Do(Run(ledger, es), e)
  {
    assert (es + [e])[..|es|] == es;
  }

  /** The lease holder is where its own log says. */
  predicate Follows(w: World, worker: nat, p: Pass) {
    worker in w.claims && Live(w, w.claims[worker]) && w.claims[worker].pass == p
  }

  lemma {:induction false} DeedIsTaken(w: World, worker: nat, p: Pass, d: Deed)
    requires Inv(w) && Follows(w, worker, p) && Enabled(p, d)
    ensures Follows(DoAct(w, worker, d, true), worker, Step(p, d))
  {
    assert Knows(p, w.ledger) && Sound(p, |w.ledger|);
  }

  lemma {:induction false} SweepIsFollowed(ledger: Ledger, es: seq<Event>, worker: nat, log: seq<Deed>)
    requires Unclosed(Run(ledger, es)) && Replay(Run(ledger, es).ledger, log).Some?
    ensures Follows(Run(ledger, es + [TakeClaim(worker)] + Acts(worker, log)), worker, Replay(Run(ledger, es).ledger, log).value)
  {
    var claimed := es + [TakeClaim(worker)];
    if log == [] {
      assert claimed + [] == claimed;
      OneMore(ledger, es, TakeClaim(worker));
    } else {
      var init, d := log[..|log| - 1], log[|log| - 1];
      SweepIsFollowed(ledger, es, worker, init);
      var before := claimed + Acts(worker, init);
      RunKeeps(ledger, before);
      OneMore(ledger, before, Act(worker, d, true));
      assert before + [Act(worker, d, true)] == claimed + Acts(worker, log);
      DeedIsTaken(Run(ledger, before), worker, Replay(Run(ledger, es).ledger, init).value, d);
    }
  }

  /** From any point of any run at which the operation is open, a worker that claims it and completes a
      sweep finishes it, with its results as the rows and their aggregate as the outcome. */
  lemma {:induction false} SweepFinishes(ledger: Ledger, es: seq<Event>, worker: nat, log: seq<Deed>)
    requires Unclosed(Run(ledger, es))
    requires Replay(Run(ledger, es).ledger, log).Some? && Replay(Run(ledger, es).ledger, log).value.Done()
    ensures var w := Run(ledger, es + [TakeClaim(worker)] + Acts(worker, log) + [Finish(worker)]);
            var results := Replay(Run(ledger, es).ledger, log).value.results;
            w.ledger == results && w.status == Finished(Aggregate(results))
  {
    var swept := es + [TakeClaim(worker)] + Acts(worker, log);
    SweepIsFollowed(ledger, es, worker, log);
    LiveWorkerIsNeverRefused(ledger, swept, worker);
    OneMore(ledger, swept, Finish(worker));
  }

  // ---------------------------------------------------------------- what closing and a lost reply leave

  /** What closing may say of a row: nothing new once it is settled, retained only where no intent was
      ever stored, and unknown where one was. */
  predicate ClosesAs(was: Resource, now: Resource) {
    && (now.Deleted? <==> was.Deleted?) && (now.Absent? <==> was.Absent?) && (now.Failed? <==> was.Failed?)
    && (now.Retained? <==> was.Retained? || was.Pending?)
    && (now.Unknown? <==> was.Unknown? || was.Running?)
  }

  /** In every run, closing an open operation as ineligible settles every row; one whose deletion may
      have been called is never called retained for it. */
  lemma {:induction false} ClosingIsHonest(ledger: Ledger, es: seq<Event>)
    requires Unclosed(Run(ledger, es))
    ensures var w, w' := Run(ledger, es), Run(ledger, es + [CloseClaim]);
            && w'.status.ClosedIneligible? && |w'.ledger| == |w.ledger|
            && (forall k :: 0 <= k < |w.ledger| ==> ClosesAs(w.ledger[k], w'.ledger[k]))
            && (forall a :: 0 <= a < |w.calls| && w.calls[a].destructive ==>
                  w.calls[a].item < |w.ledger| && (w'.ledger[w.calls[a].item].Retained? ==> w.ledger[w.calls[a].item].Retained?))
  {
    RunKeeps(ledger, es);
    OneMore(ledger, es, CloseClaim);
  }

  /** An intent that became durable although its worker was not told is found by whoever claims next:
      from then on the item is only recovered. */
  lemma {:induction false} LostIntentIsRecovered(ledger: Ledger, es: seq<Event>, worker: nat, other: nat)
    requires var w := Run(ledger, es);
             worker in w.claims && Live(w, w.claims[worker]) && Enabled(w.claims[worker].pass, Begin(Lost))
    ensures var i := |Run(ledger, es).claims[worker].pass.results|;
            var w := Run(ledger, es + [Act(worker, Begin(Lost), true)] + [TakeClaim(other)]);
            && i in w.recovered && i < |w.ledger| && w.ledger[i].Running?
            && other in w.claims && w.claims[other].pass == StartPass(w.ledger)
  {
    var lost := es + [Act(worker, Begin(Lost), true)];
    RunKeeps(ledger, es);
    var p := Run(ledger, es).claims[worker].pass;
    assert Knows(p, Run(ledger, es).ledger) && Sound(p, |Run(ledger, es).ledger|);
    OneMore(ledger, es, Act(worker, Begin(Lost), true));
    OneMore(ledger, lost, TakeClaim(other));
    assert |p.results| in RunningItems(Run(ledger, lost).ledger);
  }
}
