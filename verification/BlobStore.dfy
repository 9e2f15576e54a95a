/** The store object: its counters beside the directories they count, updated step by step. */
module BlobStore {
  import opened Optional
  import opened Blobs

  datatype Error =
    | Closed
    | Cancelled
    | TooLarge
    | StorageFull
    | Unavailable
    | LengthMismatch
    | DigestMismatch
    | Exists
    | NotFound
    | Corrupt

  datatype Result<+T> = Ok(value: T) | Err(error: Error)

  /** What the disk and the caller's context say to one upload; chunks are numbered. */
  datatype Disk = Disk(
    free: nat -> nat,
    cancelledAtStart: bool,
    cancelled: nat -> bool,
    cancelledAtEnd: bool,
    makeOk: bool,
    openOk: bool,
    written: nat -> nat,
    syncOk: bool,
    metadataOk: bool,
    renameOk: bool,
    directoryOk: bool,
    removeOk: bool)

  function Flatten(chunks: seq<Content>): Content {
    if chunks == [] then [] else Flatten(chunks[..|chunks| - 1]) + chunks[|chunks| - 1]
  }

  lemma {:induction false} FlattenNext(chunks: seq<Content>, i: nat)
    requires i < |chunks|
    ensures Flatten(chunks[..i + 1]) == Flatten(chunks[..i]) + chunks[i]
  {
    assert chunks[..i + 1][..i] == chunks[..i];
  }

  /** Chunk `i` finds room for it in the object, the store and on the disk, and is taken whole. */
  predicate Writable(l: Limits, used: int, chunks: seq<Content>, disk: Disk, i: nat)
    requires i < |chunks|
  {
    var n := |Flatten(chunks[..i])|;
    && !disk.cancelled(i)
    && |chunks[i]| <= l.maxObject - n && |chunks[i]| <= l.maxTotal - (used + n)
    && FreeFor(l, disk.free(i + 1), |chunks[i]|) && disk.written(i) >= |chunks[i]|
  }

  predicate AllWritable(l: Limits, used: int, chunks: seq<Content>, disk: Disk) {
    forall i :: 0 <= i < |chunks| ==> Writable(l, used, chunks, disk, i)
  }

  /** The content is what was declared, and becomes durable under a name that is free. */
  predicate Publishable(s: State, key: Key, declared: Declaration, content: Content, disk: Disk) {
    && Conforms(declared, content) && disk.syncOk && disk.metadataOk && !disk.cancelledAtEnd
    && key !in s.objects && disk.renameOk
  }

  /** One complete, conforming object more, under a name that was free. */
  predicate Appeared(s: State, s': State, key: Key, declared: Declaration, content: Content) {
    && key !in s.objects && Conforms(declared, content)
    && s' == s.(used := s.used + |content|, count := s.count + 1,
                objects := s.objects[key := Object(File(content, true), Describe(key, content))])
  }

  /** One abandoned staged directory more, and counted. */
  predicate Left(s: State, s': State, h: nat) {
    && h in s'.staged
    && s' == s.(used := s.used + |s'.staged[h].file.content|, count := s.count + 1, staged := s.staged[h := s'.staged[h]])
  }

  /** In the middle of an upload: exactly this one staged directory more. */
  predicate Staging(s: State, mid: State, h: nat) {
    && h !in s.staged && h !in s.live && h in mid.staged
    && mid == s.(used := s.used + |mid.staged[h].file.content|, count := s.count + 1, live := s.live + {h},
                 staged := s.staged[h := mid.staged[h]])
  }

  lemma {:induction false} AppendComposes(s: State, h: nat, a: Content, b: Content)
    requires Writing(s, h) && s.staged[h].file.synced == false
    ensures Append(s, h, []) == s
    ensures Writing(Append(s, h, a), h) && Append(Append(s, h, a), h, b) == Append(s, h, a + b)
  {
    var u := s.staged[h];
    assert u.file.content + [] == u.file.content && (u.file.content + a) + b == u.file.content + (a + b);
    assert s.staged[h := u] == s.staged;
  }

  lemma {:induction false} FilledSoFar(s: State, h: nat, grown: Content)
    requires Writing(s, h) && s.staged[h].file == File([], false)
    ensures var mid := Append(s, h, grown);
            mid.staged[h].file.content == grown && mid.used == s.used + |grown| && Writing(mid, h)
  {
    assert [] + grown == grown;
  }

  lemma {:induction false} FilledIsStaging(s: State, h: nat, key: Key, declared: Declaration, grown: Content, mid: State)
    requires s.up && h !in s.staged && h !in s.live
    requires mid == Append(Reserve(s, h, key, declared), h, grown)
    ensures Staging(s, mid, h) && mid.staged[h] == Upload(key, declared, File(grown, false), None)
  {
    assert [] + grown == grown;
  }

  lemma {:induction false} AbortUndoes(s: State, mid: State, h: nat)
    requires Staging(s, mid, h)
    ensures Abort(mid, h, true) == s && Left(s, Abort(mid, h, false), h)
  {
    assert mid.staged - {h} == s.staged;
  }

  lemma {:induction false} SealedIsStaging(s: State, mid: State, h: nat)
    requires Staging(s, mid, h) && Writing(mid, h)
    ensures Staging(s, Seal(mid, h), h)
  {
  }

  lemma {:induction false} PublishArrives(s: State, mid: State, h: nat)
    requires Staging(s, mid, h) && MaySeal(mid, h) && MayPublish(Seal(mid, h), h)
    ensures var u := mid.staged[h];
            Appeared(s, Publish(Seal(mid, h), h), u.key, u.declared, u.file.content)
  {
    assert Seal(mid, h).staged - {h} == s.staged;
  }

  class Store {
    const limits: Limits
    var closed: bool
    var used: int
    var count: int
    var staged: map<nat, Upload>
    var live: set<nat>
    var objects: map<Key, Object>
    var retired: set<Key>

    /** A store over existing directories, not yet recovered. */
    constructor (limits: Limits, staged: map<nat, Upload>, objects: map<Key, Object>, retired: set<Key>)
      ensures this.limits == limits && View() == State(false, 0, 0, staged, {}, objects, retired)
    {
      this.limits := limits;
      closed, used, count, live := true, 0, 0, {};
      this.staged, this.objects, this.retired := staged, objects, retired;
    }

    ghost function View(): State reads this {
      State(!closed, used, count, staged, live, objects, retired)
    }

    ghost predicate Valid() reads this { !closed && Inv(limits, View()) }

    /** Remove every leftover of uploads and of retirements. */
    method Sweep(leftovers: seq<nat>, remains: seq<Key>, removable: nat -> bool, disposable: Key -> bool) returns (r: Result<()>)
      requires (forall h :: h in staged <==> h in leftovers) && (forall k :: k in retired <==> k in remains)
      modifies this`staged, this`retired
      ensures r.Ok? <==> (forall h :: h in old(staged) ==> removable(h)) && (forall k :: k in old(retired) ==> disposable(k))
      ensures r.Ok? ==> staged == map[] && retired == {}
    {
      for i := 0 to |leftovers|
        invariant forall h :: h in staged ==> h in leftovers[i..]
        invariant forall j :: 0 <= j < i ==> removable(leftovers[j])
        invariant retired == old(retired)
      {
        if !removable(leftovers[i]) { return Err(Unavailable); }
        staged := staged - {leftovers[i]};
      }
      for i := 0 to |remains|
        invariant forall k :: k in retired ==> k in remains[i..]
        invariant forall j :: 0 <= j < i ==> disposable(remains[j])
        invariant staged == map[]
      {
        if !disposable(remains[i]) { return Err(Unavailable); }
        retired := retired - {remains[i]};
      }
      return Ok(());
    }

    /** Count what is published, refusing what cannot be or would not fit. */
    method CountPublished(listing: seq<Key>) returns (r: Result<()>)
      requires used == 0 && count == 0
      requires |listing| == |objects| && (forall i :: 0 <= i < |listing| ==> listing[i] in objects)
      requires forall i, j :: 0 <= i < j < |listing| ==> listing[i] != listing[j]
      modifies this`used, this`count
      ensures r.Ok? <==> Recoverable(limits, objects)
      ensures r.Ok? ==> used == ObjectBytes(objects) && count == |objects|
    {
      ghost var rest := objects;
      for i := 0 to |listing|
        invariant |rest| == |listing| - i
        invariant forall j :: i <= j < |listing| ==> listing[j] in rest && rest[listing[j]] == objects[listing[j]]
        invariant forall k :: k in objects && k !in rest ==> Plausible(k, objects[k])
        invariant used + ObjectBytes(rest) == ObjectBytes(objects) && count == i
        invariant used <= limits.maxTotal && count <= limits.maxObjects
      {
        var k := listing[i];
        ObjectGone(rest, k);
        if !Plausible(k, objects[k]) { return Err(Corrupt); }
        if objects[k].meta.bytes > limits.maxTotal - used { return Err(StorageFull); }
        used := used + objects[k].meta.bytes;
        count := count + 1;
        if count > limits.maxObjects { return Err(StorageFull); }
        rest := rest - {k};
      }
      assert ObjectSizes(rest) == map[];
      return Ok(());
    }

    /** The recovery scan: sweep leftovers, then count what is published. It succeeds exactly when
        every leftover can be removed, every object is plausible, and the limits hold of them all. */
    method Recover(leftovers: seq<nat>, remains: seq<Key>, listing: seq<Key>, removable: nat -> bool, disposable: Key -> bool)
      returns (r: Result<()>)
      requires closed && used == 0 && count == 0 && live == {}
      requires (forall h :: h in staged <==> h in leftovers) && (forall k :: k in retired <==> k in remains)
      requires |listing| == |objects| && (forall i :: 0 <= i < |listing| ==> listing[i] in objects)
      requires forall i, j :: 0 <= i < j < |listing| ==> listing[i] != listing[j]
      modifies this
      ensures objects == old(objects)
      ensures r.Ok? <==>
                && (forall h :: h in old(staged) ==> removable(h)) && (forall k :: k in old(retired) ==> disposable(k))
                && Recoverable(limits, old(objects))
      ensures r.Ok? ==> View() == Open(limits, old(View()).(staged := map[], retired := {}))
    {
      r := Sweep(leftovers, remains, removable, disposable);
      if r.Err? { return; }
      r := CountPublished(listing);
      closed := r.Err?;
    }

    /** The deferred clean-up of an upload that was not published. */
    method Discard(h: nat, removeOk: bool)
      requires Valid() && h in staged
      modifies this
      ensures Valid() && View() == Abort(old(View()), h, removeOk)
    {
      ghost var before := View();
      AbortKeeps(limits, before, h, removeOk);
      live := live - {h};
      if removeOk {
        used := used - |staged[h].file.content|;
        count := count - 1;
        staged := staged - {h};
      }
      assert View() == Abort(before, h, removeOk);
    }

    method WriteChunk(h: nat, chunk: Content, free: nat, written: nat) returns (r: Result<()>)
      requires Writing(View(), h)
      modifies this`used, this`staged
      ensures used <= old(used) || used <= limits.maxTotal
      ensures r.Ok? <==> MayWrite(limits, old(View()), h, chunk, free) && written >= |chunk|
      ensures r.Ok? ==> View() == Append(old(View()), h, chunk)
      ensures r.Err? ==> View() == old(View())
                         || (written < |chunk| && View() == Append(old(View()), h, chunk[..written]))
    {
      if |chunk| > limits.maxObject - |staged[h].file.content| { return Err(TooLarge); }
      if |chunk| > limits.maxTotal - used { return Err(StorageFull); }
      if free < limits.minFree || |chunk| > free - limits.minFree { return Err(StorageFull); }
      var n := if written < |chunk| then written else |chunk|;
      assert n == |chunk| ==> chunk[..n] == chunk;
      staged := staged[h := staged[h].(file := File(staged[h].file.content + chunk[..n], false))];
      used := used + n;
      if n < |chunk| { return Err(Unavailable); }
      return Ok(());
    }

    method TakeSlot(h: nat, key: Key, declared: Declaration, ghost free: nat)
      requires Valid() && MayReserve(limits, View(), h, declared, free)
      modifies this`count, this`staged, this`live
      ensures Valid() && View() == Reserve(old(View()), h, key, declared)
    {
      ReserveKeeps(limits, View(), h, key, declared, free);
      count := count + 1;
      staged := staged[h := Upload(key, declared, File([], false), None)];
      live := live + {h};
    }

    method BeginPut(h: nat, key: Key, declared: Declaration, disk: Disk) returns (r: Result<()>)
      requires closed || Valid()
      requires h !in staged
      modifies this
      ensures r.Err? ==> View() == old(View())
      ensures r.Ok? <==> MayReserve(limits, old(View()), h, declared, disk.free(0)) && disk.makeOk && !disk.cancelledAtStart
      ensures r.Ok? ==> Valid() && View() == Reserve(old(View()), h, key, declared)
    {
      if closed { return Err(Closed); }
      if disk.cancelledAtStart { return Err(Cancelled); }
      if declared.bytes.Some? && declared.bytes.value > limits.maxObject { return Err(TooLarge); }
      if count >= limits.maxObjects { return Err(StorageFull); }
      if disk.free(0) < limits.minFree || disk.free(0) - limits.minFree < HEADROOM { return Err(StorageFull); }
      if !disk.makeOk { return Err(Unavailable); }
      TakeSlot(h, key, declared, disk.free(0));
      return Ok(());
    }

    /** One chunk on top of what this upload wrote since `before`. */
    method CopyChunk(ghost before: State, ghost grown: Content, h: nat, chunks: seq<Content>, i: nat, disk: Disk)
      returns (r: Result<()>, ghost now: Content)
      requires i < |chunks| && Writing(before, h) && before.staged[h].file == File([], false)
      requires View() == Append(before, h, grown) && grown == Flatten(chunks[..i]) && used <= limits.maxTotal
      modifies this`used, this`staged
      ensures View() == Append(before, h, now) && used <= limits.maxTotal
      ensures r.Ok? <==> Writable(limits, before.used, chunks, disk, i)
      ensures r.Ok? ==> now == grown + chunks[i]
    {
      now := grown;
      if disk.cancelled(i) { return Err(Cancelled), grown; }
      ghost var mid := View();
      FilledSoFar(before, h, grown);
      AppendComposes(before, h, grown, chunks[i]);
      r := WriteChunk(h, chunks[i], disk.free(i + 1), disk.written(i));
      if r.Ok? {
        now := grown + chunks[i];
      } else if View() != mid {
        AppendComposes(before, h, grown, chunks[i][..disk.written(i)]);
        now := grown + chunks[i][..disk.written(i)];
      }
    }

    /** Copy the source chunk by chunk. `grown` is what reached the staged file. */
    method Fill(h: nat, chunks: seq<Content>, disk: Disk) returns (r: Result<()>, ghost grown: Content)
      requires Writing(View(), h) && staged[h].file == File([], false) && used <= limits.maxTotal
      modifies this`used, this`staged
      ensures View() == Append(old(View()), h, grown) && used <= limits.maxTotal
      ensures r.Ok? <==> AllWritable(limits, old(used), chunks, disk)
      ensures r.Ok? ==> grown == Flatten(chunks)
    {
      grown := [];
      ghost var before := View();
      AppendComposes(before, h, [], []);
      for i := 0 to |chunks|
        invariant View() == Append(before, h, grown) && used <= limits.maxTotal
        invariant grown == Flatten(chunks[..i])
        invariant forall k :: 0 <= k < i ==> Writable(limits, before.used, chunks, disk, k)
      {
        r, grown := CopyChunk(before, grown, h, chunks, i, disk);
        if r.Err? { return; }
        FlattenNext(chunks, i);
      }
      assert chunks[..|chunks|] == chunks;
      return Ok(()), grown;
    }

    /** Check the declaration, then make the data and their description durable. */
    method SealPut(h: nat, disk: Disk) returns (r: Result<Meta>)
      requires Valid() && Writing(View(), h)
      modifies this`staged
      ensures Valid()
      ensures r.Ok? <==> MaySeal(old(View()), h) && disk.syncOk && disk.metadataOk
      ensures r.Ok? ==> View() == Seal(old(View()), h)
      ensures r.Ok? ==> r.value == Describe(staged[h].key, staged[h].file.content)
      ensures r.Err? ==> View() == old(View())
    {
      var u := staged[h];
      if u.declared.bytes.Some? && u.declared.bytes.value != |u.file.content| { return Err(LengthMismatch); }
      var digest := Sha256(u.file.content);
      if u.declared.digest.Some? && u.declared.digest.value != digest { return Err(DigestMismatch); }
      if !disk.syncOk || !disk.metadataOk { return Err(Unavailable); }
      var meta := Meta(u.key, |u.file.content|, digest);
      SealKeeps(limits, View(), h);
      staged := staged[h := u.(file := u.file.(synced := true), meta := Some(meta))];
      return Ok(meta);
    }

    /** One rename publishes data and description together; a taken name is never replaced. */
    method PublishPut(h: nat, renameOk: bool) returns (r: Result<()>)
      requires Valid() && h in live && h in staged && staged[h].meta.Some?
      modifies this`objects, this`staged, this`live
      ensures Valid()
      ensures r.Ok? <==> MayPublish(old(View()), h) && renameOk
      ensures View() == if r.Ok? then Publish(old(View()), h) else old(View())
    {
      var u := staged[h];
      if u.key in objects { return Err(Exists); }
      if !renameOk { return Err(Unavailable); }
      PublishKeeps(limits, View(), h);
      objects := objects[u.key := Object(u.file, u.meta.value)];
      staged, live := staged - {h}, live - {h};
      return Ok(());
    }

    /** From a filled directory to a published object, or to a staged directory to discard. */
    method Commit(ghost before: State, h: nat, disk: Disk) returns (r: Result<Meta>, published: bool)
      requires Valid() && Staging(before, View(), h) && Writing(View(), h)
      modifies this`objects, this`staged, this`live
      ensures Valid()
      ensures var u := old(staged[h]);
              && (published ==> Appeared(before, View(), u.key, u.declared, u.file.content))
              && (r.Ok? ==> published && r.value == Describe(u.key, u.file.content))
      ensures !published ==> Staging(before, View(), h)
      ensures var u := old(staged[h]); published <==> Publishable(old(View()), u.key, u.declared, u.file.content, disk)
      ensures published ==> (r.Ok? <==> disk.directoryOk)
    {
      ghost var mid := View();
      r := SealPut(h, disk);
      if r.Err? { return r, false; }
      SealedIsStaging(before, mid, h);
      if disk.cancelledAtEnd { return Err(Cancelled), false; }
      var renamed := PublishPut(h, disk.renameOk);
      if renamed.Err? { return Err(renamed.error), false; }
      PublishArrives(before, mid, h);
      if !disk.directoryOk { return Err(Unavailable), true; }
      return r, true;
    }

    /** An upload is all or nothing: the complete object appears under a free name; or nothing
        changes; or, where its directory cannot be removed, a leftover stays counted. A failure
        after publication keeps the complete object. */
    method Put(h: nat, key: Key, declared: Declaration, chunks: seq<Content>, disk: Disk) returns (r: Result<Meta>)
      requires closed || Valid()
      requires h !in staged && h !in live
      modifies this
      ensures closed == old(closed) && (!closed ==> Valid())
      ensures r.Ok? <==>
                && MayReserve(limits, old(View()), h, declared, disk.free(0)) && !disk.cancelledAtStart
                && disk.makeOk && disk.openOk && AllWritable(limits, old(used), chunks, disk)
                && Publishable(old(View()), key, declared, Flatten(chunks), disk) && disk.directoryOk
      ensures r.Ok? ==> Appeared(old(View()), View(), key, declared, Flatten(chunks)) && r.value == Describe(key, Flatten(chunks))
      ensures r.Err? ==>
                || View() == old(View())
                || (!disk.removeOk && Left(old(View()), View(), h))
                || (!disk.directoryOk && Appeared(old(View()), View(), key, declared, Flatten(chunks)))
    {
      ghost var before := View();
      var begun := BeginPut(h, key, declared, disk);
      if begun.Err? { return Err(begun.error); }
      var published := false;
      if disk.openOk {
        var filled; ghost var grown;
        ghost var reserved := View();
        filled, grown := Fill(h, chunks, disk);
        AppendKeeps(limits, reserved, h, grown);
        FilledIsStaging(before, h, key, declared, grown, View());
        if filled.Err? {
          r := Err(filled.error);
        } else {
          r, published := Commit(before, h, disk);
        }
      } else {
        r := Err(Unavailable);
      }
      if !published {
        AbortUndoes(before, View(), h);
        Discard(h, disk.removeOk);
      }
    }

    /** Finish a retirement that an earlier call may have left half done. */
    method RemoveRetired(key: Key, removeOk: bool) returns (r: Result<()>)
      requires Valid()
      modifies this`retired
      ensures Valid()
      ensures r.Ok? <==> key !in old(retired) || removeOk
      ensures View() == if r.Ok? then old(View()).(retired := old(retired) - {key}) else old(View())
    {
      if key in retired {
        if !removeOk { return Err(Unavailable); }
        retired := retired - {key};
      }
      return Ok(());
    }

    method RetireObject(key: Key)
      requires key in objects
      modifies this`objects, this`retired, this`used, this`count
      ensures View() == Retire(old(View()), key)
    {
      used, count := used - objects[key].meta.bytes, count - 1;
      objects, retired := objects - {key}, retired + {key};
    }

    /** Deletion moves the whole, verified object aside and only then removes files. It succeeds
        only when nothing is left under either name, says whether the object was already absent,
        and may simply be repeated after any failure past the rename. */
    method Delete(expected: Meta, disk: Disk) returns (r: Result<bool>)
      requires closed || Valid()
      modifies this
      ensures closed == old(closed) && (!closed ==> Valid())
      ensures objects != old(objects) ==>
                MayRetire(old(View()), expected) && objects == old(objects) - {expected.key}
      ensures r.Ok? ==> expected.key !in objects && expected.key !in retired
      ensures r.Ok? ==> r.value == (expected.key !in old(objects))
      ensures !old(closed) && !disk.cancelledAtStart && disk.removeOk && expected.key !in old(objects) ==> r == Ok(true)
      ensures (&& MayRetire(old(View()), expected) && !disk.cancelledAtStart && !disk.cancelledAtEnd
               && disk.renameOk && disk.directoryOk && disk.removeOk) ==> r == Ok(false)
      ensures staged == old(staged) && live == old(live)
    {
      if closed { return Err(Closed); }
      if disk.cancelledAtStart { return Err(Cancelled); }
      var key := expected.key;
      if key !in objects {
        var removed := RemoveRetired(key, disk.removeOk);
        return if removed.Ok? then Ok(true) else Err(removed.error);
      }
      if key in retired { return Err(Corrupt); }
      var o := objects[key];
      if !Plausible(key, o) || o.meta != expected { return Err(Corrupt); }
      if |o.file.content| != expected.bytes || Sha256(o.file.content) != expected.digest { return Err(Corrupt); }
      if disk.cancelledAtEnd { return Err(Cancelled); }
      if !disk.renameOk { return Err(Unavailable); }
      RetireKeeps(limits, View(), key);
      RetireObject(key);
      if !disk.directoryOk { return Err(Unavailable); }
      var removed := RemoveRetired(key, disk.removeOk);
      return if removed.Ok? then Ok(false) else Err(removed.error);
    }
  }
}
