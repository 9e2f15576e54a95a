/** The blob store: staged uploads, publication and retirement by one rename, in-memory counters,
    crashes that lose unsynced bytes, and the recovery scan. Object names and digests stand for
    the hashes the store derives; both are taken to be injective. */
module Blobs {
  import opened Optional

  type Content = seq<bv8>
  datatype Key = Key(workspace: string, id: string)
  datatype Digest = Sha256(content: Content)

  datatype Limits = Limits(maxObject: nat, maxTotal: nat, minFree: nat, maxObjects: nat)

  const HEADROOM: nat := 4096

  datatype Declaration = Declaration(bytes: Option<nat>, digest: Option<Digest>)
  datatype Meta = Meta(key: Key, bytes: nat, digest: Digest)

  /** A data file; unsynced bytes do not survive a crash. */
  datatype File = File(content: Content, synced: bool)
  datatype Upload = Upload(key: Key, declared: Declaration, file: File, meta: Option<Meta>)
  datatype Object = Object(file: File, meta: Meta)

  /** `live` are the uploads a running Put still owns; other staged directories are leftovers. */
  datatype State = State(
    up: bool,
    used: int,
    count: int,
    staged: map<nat, Upload>,
    live: set<nat>,
    objects: map<Key, Object>,
    retired: set<Key>)

  const EMPTY := State(true, 0, 0, map[], {}, map[], {})

  // ---------------------------------------------------------------- totals

  ghost function Total<K(!new)>(sizes: map<K, nat>): nat
    decreases |sizes|
  {
    if sizes == map[] then 0
    else var k :| k in sizes; sizes[k] + Total(sizes - {k})
  }

  lemma {:induction false} TotalWithout<K(!new)>(sizes: map<K, nat>, k: K)
    requires k in sizes
    ensures Total(sizes) == sizes[k] + Total(sizes - {k})
    decreases |sizes|
  {
    var j :| j in sizes && Total(sizes) == sizes[j] + Total(sizes - {j});
    if j != k {
      TotalWithout(sizes - {j}, k);
      TotalWithout(sizes - {k}, j);
      assert sizes - {j} - {k} == sizes - {k} - {j};
    }
  }

  lemma {:induction false} TotalWith<K(!new)>(sizes: map<K, nat>, k: K, n: nat)
    requires k !in sizes
    ensures Total(sizes[k := n]) == Total(sizes) + n
  {
    TotalWithout(sizes[k := n], k);
    assert sizes[k := n] - {k} == sizes;
  }

  function ObjectSizes(objects: map<Key, Object>): map<Key, nat> {
    map k | k in objects :: |objects[k].file.content|
  }

  function UploadSizes(staged: map<nat, Upload>): map<nat, nat> {
    map h | h in staged :: |staged[h].file.content|
  }

  ghost function ObjectBytes(objects: map<Key, Object>): nat { Total(ObjectSizes(objects)) }
  ghost function UploadBytes(staged: map<nat, Upload>): nat { Total(UploadSizes(staged)) }

  // ---------------------------------------------------------------- steps

  predicate FreeFor(l: Limits, free: nat, bytes: nat) { free >= l.minFree && bytes <= free - l.minFree }

  predicate MayReserve(l: Limits, s: State, h: nat, declared: Declaration, free: nat) {
    && s.up && h !in s.staged
    && (declared.bytes.Some? ==> declared.bytes.value <= l.maxObject)
    && s.count < l.maxObjects
    && FreeFor(l, free, HEADROOM)
  }

  function Reserve(s: State, h: nat, key: Key, declared: Declaration): State {
    s.(count := s.count + 1, live := s.live + {h},
       staged := s.staged[h := Upload(key, declared, File([], false), None)])
  }

  predicate Writing(s: State, h: nat) { s.up && h in s.live && h in s.staged && s.staged[h].meta.None? }

  predicate MayWrite(l: Limits, s: State, h: nat, chunk: Content, free: nat) {
    && Writing(s, h)
    && |chunk| <= l.maxObject - |s.staged[h].file.content|
    && |chunk| <= l.maxTotal - s.used
    && FreeFor(l, free, |chunk|)
  }

  /** `bytes` is what reached the file; a failing disk may take only part of a chunk. */
  function Append(s: State, h: nat, bytes: Content): State
    requires Writing(s, h)
  {
    var u := s.staged[h];
    s.(used := s.used + |bytes|,
       staged := s.staged[h := u.(file := File(u.file.content + bytes, false))])
  }

  predicate Conforms(declared: Declaration, content: Content) {
    && (declared.bytes.Some? ==> declared.bytes.value == |content|)
    && (declared.digest.Some? ==> declared.digest.value == Sha256(content))
  }

  function Describe(key: Key, content: Content): Meta { Meta(key, |content|, Sha256(content)) }

  predicate MaySeal(s: State, h: nat) {
    Writing(s, h) && Conforms(s.staged[h].declared, s.staged[h].file.content)
  }

  function Seal(s: State, h: nat): State
    requires Writing(s, h)
  {
    var u := s.staged[h];
    s.(staged := s.staged[h := u.(file := u.file.(synced := true), meta := Some(Describe(u.key, u.file.content)))])
  }

  predicate MayPublish(s: State, h: nat) {
    s.up && h in s.live && h in s.staged && s.staged[h].meta.Some? && s.staged[h].key !in s.objects
  }

  function Publish(s: State, h: nat): State
    requires h in s.staged && s.staged[h].meta.Some?
  {
    var u := s.staged[h];
    s.(staged := s.staged - {h}, live := s.live - {h}, objects := s.objects[u.key := Object(u.file, u.meta.value)])
  }

  /** What remains of an unpublished upload stays counted until its directory is gone. */
  function Abort(s: State, h: nat, removed: bool): State
    requires h in s.staged
  {
    if removed
    then s.(live := s.live - {h}, staged := s.staged - {h},
            used := s.used - |s.staged[h].file.content|, count := s.count - 1)
    else s.(live := s.live - {h})
  }

  predicate Complete(k: Key, o: Object) { o.meta == Describe(k, o.file.content) }

  predicate MayRetire(s: State, expected: Meta) {
    && s.up && expected.key in s.objects && expected.key !in s.retired
    && s.objects[expected.key].meta == expected
    && Complete(expected.key, s.objects[expected.key])
  }

  function Retire(s: State, k: Key): State
    requires k in s.objects
  {
    s.(objects := s.objects - {k}, retired := s.retired + {k},
       used := s.used - s.objects[k].meta.bytes, count := s.count - 1)
  }

  function Damage(f: File, instead: Content): File { if f.synced then f else f.(content := instead) }

  /** Memory is gone, and so is any data that was never synced. */
  function Crash(s: State, debris: nat -> Content, rot: Key -> Content): State {
    State(false, 0, 0,
          map h | h in s.staged :: s.staged[h].(file := Damage(s.staged[h].file, debris(h))),
          {},
          map k | k in s.objects :: s.objects[k].(file := Damage(s.objects[k].file, rot(k))),
          s.retired)
  }

  /** What the recovery scan can see of an object without reading its data. */
  predicate Plausible(k: Key, o: Object) { o.meta.key == k && o.meta.bytes == |o.file.content| }

  /** The verdict of the recovery scan once staging is swept. */
  ghost predicate Recoverable(l: Limits, objects: map<Key, Object>) {
    && (forall k :: k in objects ==> Plausible(k, objects[k]))
    && ObjectBytes(objects) <= l.maxTotal
    && |objects| <= l.maxObjects
  }

  ghost function Open(l: Limits, s: State): State {
    if !s.up && s.staged == map[] && s.retired == {} && Recoverable(l, s.objects)
    then s.(up := true, used := ObjectBytes(s.objects), count := |s.objects|)
    else s
  }

  datatype Event =
    | BeginPut(h: nat, key: Key, declared: Declaration, free: nat)
    | WriteChunk(h: nat, chunk: Content, written: nat, free: nat)
    | SealPut(h: nat)
    | PublishPut(h: nat)
    | AbortPut(h: nat, removed: bool)
    | RetireObject(expected: Meta)
    | RemoveRetired(key: Key)
    | CrashStore(debris: nat -> Content, rot: Key -> Content)
    | SweepStaged(h: nat)
    | OpenStore

  ghost function Do(l: Limits, s: State, e: Event): State {
    match e
    case BeginPut(h, key, declared, free) =>
      if MayReserve(l, s, h, declared, free) then Reserve(s, h, key, declared) else s
    case WriteChunk(h, chunk, written, free) =>
      if MayWrite(l, s, h, chunk, free) && written <= |chunk| then Append(s, h, chunk[..written]) else s
    case SealPut(h) => if MaySeal(s, h) then Seal(s, h) else s
    case PublishPut(h) => if MayPublish(s, h) then Publish(s, h) else s
    case AbortPut(h, removed) => if s.up && h in s.live && h in s.staged then Abort(s, h, removed) else s
    case RetireObject(expected) => if MayRetire(s, expected) then Retire(s, expected.key) else s
    case RemoveRetired(k) => s.(retired := s.retired - {k})
    case CrashStore(debris, rot) => Crash(s, debris, rot)
    case SweepStaged(h) => if s.up then s else s.(staged := s.staged - {h})
    case OpenStore => Open(l, s)
  }

  ghost function Run(l: Limits, es: seq<Event>): State {
    if es == [] then EMPTY else Do(l, Run(l, es[..|es| - 1]), es[|es| - 1])
  }

  // ---------------------------------------------------------------- the invariant

  predicate Sealed(u: Upload) {
    u.meta.Some? ==> u.file.synced && u.meta.value == Describe(u.key, u.file.content)
  }

  predicate Wellformed(s: State) {
    && (forall h :: h in s.live ==> s.up && h in s.staged && Sealed(s.staged[h]))
    && (forall k :: k in s.objects ==> s.objects[k].file.synced && Complete(k, s.objects[k]))
  }

  /** While the store is up its counters are the sums over published and staged objects. */
  ghost predicate Counted(s: State) {
    s.up ==>
      && s.used == ObjectBytes(s.objects) + UploadBytes(s.staged)
      && s.count == |s.objects| + |s.staged|
  }

  ghost predicate Bounded(l: Limits, s: State) {
    && ObjectBytes(s.objects) <= l.maxTotal && |s.objects| <= l.maxObjects
    && (s.up ==> 0 <= s.used <= l.maxTotal && 0 <= s.count <= l.maxObjects)
  }

  ghost predicate Inv(l: Limits, s: State) { Wellformed(s) && Counted(s) && Bounded(l, s) }

  // ---------------------------------------------------------------- every step keeps it

  lemma {:induction false} UploadAdded(staged: map<nat, Upload>, h: nat, u: Upload)
    requires h !in staged
    ensures UploadBytes(staged[h := u]) == UploadBytes(staged) + |u.file.content|
    ensures |staged[h := u]| == |staged| + 1
  {
    TotalWith(UploadSizes(staged), h, |u.file.content|);
    assert UploadSizes(staged[h := u]) == UploadSizes(staged)[h := |u.file.content|];
  }

  lemma {:induction false} ReserveKeeps(l: Limits, s: State, h: nat, key: Key, declared: Declaration, free: nat)
    requires Inv(l, s) && MayReserve(l, s, h, declared, free)
    ensures Inv(l, Reserve(s, h, key, declared))
  {
    UploadAdded(s.staged, h, Upload(key, declared, File([], false), None));
  }

  lemma {:induction false} UploadGone(staged: map<nat, Upload>, h: nat)
    requires h in staged
    ensures UploadBytes(staged) == UploadBytes(staged - {h}) + |staged[h].file.content|
    ensures |staged - {h}| == |staged| - 1
  {
    TotalWithout(UploadSizes(staged), h);
    assert UploadSizes(staged) - {h} == UploadSizes(staged - {h});
    assert (staged - {h}).Keys == staged.Keys - {h};
  }

  lemma {:induction false} UploadSet(staged: map<nat, Upload>, h: nat, u: Upload)
    requires h in staged
    ensures UploadBytes(staged[h := u]) == UploadBytes(staged) - |staged[h].file.content| + |u.file.content|
    ensures |staged[h := u]| == |staged|
  {
    UploadGone(staged, h);
    UploadGone(staged[h := u], h);
    assert staged[h := u] - {h} == staged - {h};
  }

  lemma {:induction false} AppendKeeps(l: Limits, s: State, h: nat, bytes: Content)
    requires Inv(l, s) && Writing(s, h) && |bytes| <= l.maxTotal - s.used
    ensures Inv(l, Append(s, h, bytes))
  {
    UploadSet(s.staged, h, Append(s, h, bytes).staged[h]);
  }

  lemma {:induction false} SealKeeps(l: Limits, s: State, h: nat)
    requires Inv(l, s) && MaySeal(s, h)
    ensures Inv(l, Seal(s, h))
  {
    UploadSet(s.staged, h, Seal(s, h).staged[h]);
  }

  lemma {:induction false} ObjectAdded(objects: map<Key, Object>, k: Key, o: Object)
    requires k !in objects
    ensures ObjectBytes(objects[k := o]) == ObjectBytes(objects) + |o.file.content|
    ensures |objects[k := o]| == |objects| + 1
  {
    TotalWith(ObjectSizes(objects), k, |o.file.content|);
    assert ObjectSizes(objects[k := o]) == ObjectSizes(objects)[k := |o.file.content|];
  }

  /** Publication moves the bytes; it does not count them again. */
  lemma {:induction false} PublishKeeps(l: Limits, s: State, h: nat)
    requires Inv(l, s) && MayPublish(s, h)
    ensures Inv(l, Publish(s, h))
  {
    var u := s.staged[h];
    UploadGone(s.staged, h);
    ObjectAdded(s.objects, u.key, Object(u.file, u.meta.value));
  }

  lemma {:induction false} AbortKeeps(l: Limits, s: State, h: nat, removed: bool)
    requires Inv(l, s) && s.up && h in s.staged
    ensures Inv(l, Abort(s, h, removed))
  {
    UploadGone(s.staged, h);
  }

  lemma {:induction false} ObjectGone(objects: map<Key, Object>, k: Key)
    requires k in objects
    ensures ObjectBytes(objects) == ObjectBytes(objects - {k}) + |objects[k].file.content|
    ensures |objects - {k}| == |objects| - 1
  {
    TotalWithout(ObjectSizes(objects), k);
    assert ObjectSizes(objects) - {k} == ObjectSizes(objects - {k});
    assert (objects - {k}).Keys == objects.Keys - {k};
  }

  lemma {:induction false} RetireKeeps(l: Limits, s: State, k: Key)
    requires Inv(l, s) && s.up && k in s.objects
    ensures Inv(l, Retire(s, k))
  {
    ObjectGone(s.objects, k);
  }

  /** Everything published was synced first, so a crash changes no visible object. */
  lemma {:induction false} CrashKeeps(l: Limits, s: State, debris: nat -> Content, rot: Key -> Content)
    requires Inv(l, s)
    ensures Inv(l, Crash(s, debris, rot)) && Crash(s, debris, rot).objects == s.objects
  {
    assert Crash(s, debris, rot).objects == s.objects;
  }

  lemma {:induction false} OpenKeeps(l: Limits, s: State)
    requires Inv(l, s)
    ensures Inv(l, Open(l, s))
  {
    if !s.up && s.staged == map[] {
      assert UploadSizes(s.staged) == map[];
    }
  }

  lemma {:induction false} DoKeeps(l: Limits, s: State, e: Event)
    requires Inv(l, s)
    ensures Inv(l, Do(l, s, e))
  {
    match e
    case BeginPut(h, key, declared, free) =>
      if MayReserve(l, s, h, declared, free) { ReserveKeeps(l, s, h, key, declared, free); }
    case WriteChunk(h, chunk, written, free) =>
      if MayWrite(l, s, h, chunk, free) && written <= |chunk| { AppendKeeps(l, s, h, chunk[..written]); }
    case SealPut(h) => if MaySeal(s, h) { SealKeeps(l, s, h); }
    case PublishPut(h) => if MayPublish(s, h) { PublishKeeps(l, s, h); }
    case AbortPut(h, removed) => if s.up && h in s.live && h in s.staged { AbortKeeps(l, s, h, removed); }
    case RetireObject(expected) => if MayRetire(s, expected) { RetireKeeps(l, s, expected.key); }
    case CrashStore(debris, rot) => CrashKeeps(l, s, debris, rot);
    case OpenStore => OpenKeeps(l, s);
    case _ =>
  }

  lemma {:induction false} RunKeeps(l: Limits, es: seq<Event>)
    ensures Inv(l, Run(l, es))
  {
    if es == [] {
      assert ObjectSizes(EMPTY.objects) == map[] && UploadSizes(EMPTY.staged) == map[];
    } else {
      RunKeeps(l, es[..|es| - 1]);
      DoKeeps(l, Run(l, es[..|es| - 1]), es[|es| - 1]);
    }
  }

  // ---------------------------------------------------------------- what every run guarantees

  /** Over every interleaving of uploads, chunk writes, aborts, publications, deletions and
      crashes: the counters are the sums over published and staged objects, never past the limits. */
  lemma {:induction false} CountersAreSums(l: Limits, es: seq<Event>)
    ensures var s := Run(l, es);
            s.up ==>
              && s.used == ObjectBytes(s.objects) + UploadBytes(s.staged) <= l.maxTotal
              && s.count == |s.objects| + |s.staged| <= l.maxObjects
  {
    RunKeeps(l, es);
  }

  /** Every visible object is complete at every step, crashes included: its data are exactly what
      its metadata describe, under the name it is stored by. */
  lemma {:induction false} VisibleIsComplete(l: Limits, es: seq<Event>, k: Key)
    requires k in Run(l, es).objects
    ensures Complete(k, Run(l, es).objects[k])
  {
    RunKeeps(l, es);
  }

  /** After a crash at any step, sweeping the leftovers and opening succeeds with counters equal
      to the published set. */
  lemma {:induction false} RecoveryAgrees(l: Limits, es: seq<Event>, debris: nat -> Content, rot: Key -> Content)
    ensures var before := Run(l, es);
            var down := Crash(before, debris, rot);
            var after := Open(l, down.(staged := map[], retired := {}));
            && after.up && after.objects == before.objects
            && after.used == ObjectBytes(before.objects) && after.count == |before.objects|
  {
    RunKeeps(l, es);
    CrashRecovers(l, Run(l, es), debris, rot);
  }

  lemma {:induction false} CrashRecovers(l: Limits, s: State, debris: nat -> Content, rot: Key -> Content)
    requires Inv(l, s)
    ensures var after := Open(l, Crash(s, debris, rot).(staged := map[], retired := {}));
            && after.up && after.objects == s.objects
            && after.used == ObjectBytes(s.objects) && after.count == |s.objects|
  {
    CrashKeeps(l, s, debris, rot);
    PublishedIsRecoverable(l, s);
  }

  lemma {:induction false} PublishedIsRecoverable(l: Limits, s: State)
    requires Inv(l, s)
    ensures Recoverable(l, s.objects)
  {
  }

  function Sweeps(hs: seq<nat>): seq<Event> {
    if hs == [] then [] else Sweeps(hs[..|hs| - 1]) + [SweepStaged(hs[|hs| - 1])]
  }

  function Removals(ks: seq<Key>): seq<Event> {
    if ks == [] then [] else Removals(ks[..|ks| - 1]) + [RemoveRetired(ks[|ks| - 1])]
  }

  lemma {:induction false} OneMore(l: Limits, es: seq<Event>, e: Event)
    ensures Run(l, es + [e]) == Do(l, Run(l, es), e)
  {
    assert (es + [e])[..|es|] == es;
  }

  lemma {:induction false} SweepsClear(l: Limits, es: seq<Event>, hs: seq<nat>)
    requires !Run(l, es).up
    ensures var s, s' := Run(l, es), Run(l, es + Sweeps(hs));
            s' == s.(staged := s'.staged) && forall h :: h in s'.staged <==> h in s.staged && h !in hs
  {
    if hs == [] {
      assert es + [] == es;
    } else {
      var init, h := hs[..|hs| - 1], hs[|hs| - 1];
      SweepsClear(l, es, init);
      assert es + Sweeps(hs) == es + Sweeps(init) + [SweepStaged(h)];
      OneMore(l, es + Sweeps(init), SweepStaged(h));
      assert hs == init + [h];
    }
  }

  lemma {:induction false} RemovalsClear(l: Limits, es: seq<Event>, ks: seq<Key>)
    ensures var s, s' := Run(l, es), Run(l, es + Removals(ks));
            s' == s.(retired := s'.retired) && forall k :: k in s'.retired <==> k in s.retired && k !in ks
  {
    if ks == [] {
      assert es + [] == es;
    } else {
      var init, k := ks[..|ks| - 1], ks[|ks| - 1];
      RemovalsClear(l, es, init);
      assert es + Removals(ks) == es + Removals(init) + [RemoveRetired(k)];
      OneMore(l, es + Removals(init), RemoveRetired(k));
      assert ks == init + [k];
    }
  }

  /** The leftovers can be removed one by one, in any order and however often: once all are gone the
      store opens again on exactly what was published. */
  lemma {:induction false} RecoveryIsReached(l: Limits, es: seq<Event>, debris: nat -> Content, rot: Key -> Content, hs: seq<nat>, ks: seq<Key>)
    requires (forall h :: h in Run(l, es).staged ==> h in hs) && (forall k :: k in Run(l, es).retired ==> k in ks)
    ensures var before := Run(l, es);
            var after := Run(l, es + [CrashStore(debris, rot)] + Sweeps(hs) + Removals(ks) + [OpenStore]);
            && after.up && after.objects == before.objects && after.staged == map[] && after.retired == {}
            && after.used == ObjectBytes(before.objects) && after.count == |before.objects|
  {
    var down := es + [CrashStore(debris, rot)];
    OneMore(l, es, CrashStore(debris, rot));
    SweepsClear(l, down, hs);
    RemovalsClear(l, down + Sweeps(hs), ks);
    OneMore(l, down + Sweeps(hs) + Removals(ks), OpenStore);
    var swept := Run(l, down + Sweeps(hs) + Removals(ks));
    assert swept.staged == map[] && swept.retired == {};
    assert swept == Run(l, down).(staged := map[], retired := {});
    RecoveryAgrees(l, es, debris, rot);
  }

  /** An identity is published once: no event replaces or alters a visible object; it can only be
      retired, whole. */
  lemma {:induction false} ObjectsAreImmutable(l: Limits, es: seq<Event>, e: Event, k: Key)
    requires k in Run(l, es).objects
    ensures var s' := Run(l, es + [e]);
            k in s'.objects ==> s'.objects[k] == Run(l, es).objects[k]
    ensures k !in Run(l, es + [e]).objects ==> e.RetireObject? && e.expected == Run(l, es).objects[k].meta
  {
    RunKeeps(l, es);
    assert (es + [e])[..|es|] == es;
  }
}
