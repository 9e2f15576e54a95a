/** The bundle as bytes: the writer, the inspector, and that the second accepts what the first
    emits. Framing follows the ustar interchange format of the pax utility, IEEE Std 1003.1. */
module Bundle {
  import opened Optional
  import opened Names
  import opened PathSets
  import opened Sorting
  import opened Packaging

  const BLOCK: nat := 512
  const BUFFER: nat := 64 * 1024
  const MANIFEST_PATH := ".compute-relay/bundle.json"

  function Pad(n: nat): (r: nat)
    ensures r < BLOCK && (n + r) % BLOCK == 0
  {
    (BLOCK - n % BLOCK) % BLOCK
  }

  function Zeros(n: nat): (r: Bytes)
    ensures |r| == n && AllZero(r)
  {
    seq(n, _ => 0)
  }

  predicate AllZero(b: Bytes) { forall i :: 0 <= i < |b| ==> b[i] == 0 }

  predicate ValidDigest(s: string) {
    |s| == 64 && forall i :: 0 <= i < |s| ==> '0' <= s[i] <= '9' || 'a' <= s[i] <= 'f'
  }

  function ManifestHeader(size: nat): Header { Header(MANIFEST_PATH, size, false) }

  /** What is assumed of the encodings, and no more: each reader undoes its writer. */
  ghost predicate Faithful(l: Limits, w: Wire) {
    && (forall m :: w.decode(w.encode(m)) == Some(m) && w.encode(m) != [])
    && (forall h :: w.encodable(h) ==> |w.block(h)| == BLOCK && !AllZero(w.block(h)) && w.parse(w.block(h)) == Some(h))
    && (forall n: nat :: n <= l.maxManifest ==> w.encodable(ManifestHeader(n)))
    && (forall b :: w.inflate(w.deflate(b)) == Some(b))
    && (forall b :: ValidDigest(w.digest(b)))
  }

  // ---------------------------------------------------------------- what a bundle is

  function TotalBytes(files: seq<File>): nat {
    if files == [] then 0 else TotalBytes(files[..|files| - 1]) + files[|files| - 1].bytes
  }

  function FilePaths(files: seq<File>): (r: seq<string>)
    ensures |r| == |files| && forall i :: 0 <= i < |r| ==> r[i] == files[i].path
  {
    seq(|files|, i requires 0 <= i < |files| => files[i].path)
  }

  predicate FileOk(l: Limits, f: File) { Admissible(f.path) && Depth(f.path) <= l.maxDepth && ValidDigest(f.sha256) }

  predicate EachOk(l: Limits, files: seq<File>) { forall i :: 0 <= i < |files| ==> FileOk(l, files[i]) }

  predicate FilesOk(l: Limits, files: seq<File>) {
    && EachOk(l, files)
    && AllCompatible(FilePaths(files)) && Ascending(FilePaths(files))
    && TotalBytes(files) <= l.maxExpanded
  }

  predicate Acceptable(l: Limits, m: Manifest) {
    m.version == VERSION && 1 <= |m.files| <= l.maxFiles && FilesOk(l, m.files)
  }

  function FramedSize(f: File): nat { BLOCK + f.bytes + Pad(f.bytes) }

  predicate FramesOne(w: Wire, s: Bytes, f: File) {
    && |s| >= FramedSize(f)
    && !AllZero(s[..BLOCK]) && w.parse(s[..BLOCK]) == Some(HeaderOf(f))
    && w.digest(s[BLOCK..BLOCK + f.bytes]) == f.sha256
    && AllZero(s[BLOCK + f.bytes..FramedSize(f)])
  }

  predicate FramesAll(w: Wire, s: Bytes, files: seq<File>)
    decreases |files|
  {
    if files == [] then |s| == 2 * BLOCK && AllZero(s)
    else FramesOne(w, s, files[0]) && FramesAll(w, s[FramedSize(files[0])..], files[1..])
  }

  /** The size of the encoded manifest, if that is how the stream begins. */
  function ManifestSize(l: Limits, w: Wire, s: Bytes): (r: Option<nat>)
    ensures r.Some? ==> 1 <= r.value <= l.maxManifest && |s| >= BLOCK + r.value + Pad(r.value)
  {
    if |s| < BLOCK || AllZero(s[..BLOCK]) then None else
    var h := w.parse(s[..BLOCK]);
    if h.None? || h.value.name != MANIFEST_PATH || h.value.size < 1 || h.value.size > l.maxManifest then None else
    var size := h.value.size;
    if |s| >= BLOCK + size + Pad(size) && AllZero(s[BLOCK + size..BLOCK + size + Pad(size)]) then Some(size) else None
  }

  predicate IsArchive(l: Limits, w: Wire, s: Bytes, m: Manifest) { Acceptable(l, m) && FramesAll(w, s, m.files) }

  datatype Report = Report(manifest: Manifest, manifestSha256: string, bytes: nat, sha256: string)

  /** A manifest that describes exactly what follows it, and its digest. */
  function Reading(l: Limits, w: Wire, encoded: Bytes, rest: Bytes): Option<(Manifest, string)> {
    var m := w.decode(encoded);
    if m.Some? && IsArchive(l, w, rest, m.value) then Some((m.value, w.digest(encoded))) else None
  }

  function ReadingAt(l: Limits, w: Wire, s: Bytes, size: nat): Option<(Manifest, string)>
    requires |s| >= BLOCK + size + Pad(size)
  {
    Reading(l, w, s[BLOCK..BLOCK + size], s[BLOCK + size + Pad(size)..])
  }

  function ManifestIn(l: Limits, w: Wire, s: Bytes): Option<(Manifest, string)> {
    var size := ManifestSize(l, w, s);
    if size.None? then None
    else ReadingAt(l, w, s, size.value)
  }

  /** What a bundle is, and what it says: one stream that is exactly a manifest and its archive. */
  function ReportOf(l: Limits, w: Wire, bundle: Bytes): Option<Report> {
    if |bundle| > l.maxCompressed || w.inflate(bundle).None? then None else
    var m := ManifestIn(l, w, w.inflate(bundle).value);
    if m.None? then None else Some(Report(m.value.0, m.value.1, |bundle|, w.digest(bundle)))
  }

  // ---------------------------------------------------------------- the writer

  function FrameOf(w: Wire, m: Member): Bytes {
    w.block(HeaderOf(m.file)) + m.content + Zeros(Pad(m.file.bytes))
  }

  function Body(w: Wire, members: seq<Member>): Bytes {
    if members == [] then Zeros(2 * BLOCK) else FrameOf(w, members[0]) + Body(w, members[1..])
  }

  function Stream(w: Wire, members: seq<Member>): Bytes {
    var encoded := w.encode(ManifestOf(members));
    w.block(ManifestHeader(|encoded|)) + encoded + Zeros(Pad(|encoded|)) + Body(w, members)
  }

  lemma {:induction false} BodySplits(w: Wire, members: seq<Member>, i: nat, out: Bytes)
    requires i < |members|
    ensures out + Body(w, members[i..]) == out + FrameOf(w, members[i]) + Body(w, members[i + 1..])
  {
    assert members[i..][1..] == members[i + 1..];
  }

  method Write(l: Limits, w: Wire, members: seq<Member>) returns (bundle: Bytes, report: Option<Report>)
    ensures bundle == w.deflate(Stream(w, members))
    ensures report.Some? <==> |bundle| <= l.maxCompressed
    ensures report.Some? ==>
              report.value == Report(ManifestOf(members), w.digest(w.encode(ManifestOf(members))), |bundle|, w.digest(bundle))
  {
    var manifest := ManifestOf(members);
    var encoded := w.encode(manifest);
    var out := w.block(ManifestHeader(|encoded|)) + encoded + Zeros(Pad(|encoded|));
    for i := 0 to |members|
      invariant out + Body(w, members[i..]) == Stream(w, members)
    {
      BodySplits(w, members, i, out);
      out := out + w.block(HeaderOf(members[i].file));
      out := out + members[i].content;
      out := out + Zeros(Pad(members[i].file.bytes));
      assert out + Body(w, members[i + 1..]) == Stream(w, members);
    }
    out := out + Zeros(2 * BLOCK);
    bundle := w.deflate(out);
    report := None;
    if |bundle| <= l.maxCompressed {
      report := Some(Report(manifest, w.digest(encoded), |bundle|, w.digest(bundle)));
    }
  }

  // ---------------------------------------------------------------- written bundles are bundles

  lemma {:induction false} FrameIsFramed(l: Limits, w: Wire, m: Member, rest: Bytes)
    requires Faithful(l, w) && Sound(l, w, m)
    ensures FramesOne(w, FrameOf(w, m) + rest, m.file)
    ensures (FrameOf(w, m) + rest)[FramedSize(m.file)..] == rest
  {
    var s := FrameOf(w, m) + rest;
    assert s[..BLOCK] == w.block(HeaderOf(m.file));
    assert s[BLOCK..BLOCK + m.file.bytes] == m.content;
    assert s[BLOCK + m.file.bytes..FramedSize(m.file)] == Zeros(Pad(m.file.bytes));
  }

  function Files(members: seq<Member>): (r: seq<File>)
    ensures |r| == |members| && forall i :: 0 <= i < |r| ==> r[i] == members[i].file
  {
    seq(|members|, i requires 0 <= i < |members| => members[i].file)
  }

  lemma {:induction false} BodyIsFramed(l: Limits, w: Wire, members: seq<Member>)
    requires Faithful(l, w) && AllSound(l, w, members)
    ensures FramesAll(w, Body(w, members), Files(members))
    decreases |members|
  {
    if members != [] {
      var rest := Body(w, members[1..]);
      FrameIsFramed(l, w, members[0], rest);
      BodyIsFramed(l, w, members[1..]);
      assert Files(members)[1..] == Files(members[1..]);
    }
  }

  lemma {:induction false} PayloadIsTotal(members: seq<Member>)
    ensures Payload(members) == TotalBytes(Files(members))
    decreases |members|
  {
    if members != [] {
      PayloadIsTotal(members[..|members| - 1]);
      assert Files(members)[..|members| - 1] == Files(members[..|members| - 1]);
    }
  }

  lemma {:induction false} PreparedIsAcceptable(l: Limits, w: Wire, members: seq<Member>)
    requires Faithful(l, w) && Prepared(l, w, members)
    ensures Acceptable(l, ManifestOf(members)) && ManifestOf(members).files == Files(members)
  {
    var m := ManifestOf(members);
    assert m.files == Files(members);
    assert FilePaths(m.files) == Paths(members);
    PayloadIsTotal(members);
    forall i | 0 <= i < |m.files| ensures FileOk(l, m.files[i]) { assert Sound(l, w, members[i]); }
  }

  lemma {:induction false} StreamParts(w: Wire, members: seq<Member>)
    requires var size := |w.encode(ManifestOf(members))|; |w.block(ManifestHeader(size))| == BLOCK
    ensures var encoded, s := w.encode(ManifestOf(members)), Stream(w, members);
            var size := |encoded|;
            && |s| >= BLOCK + size + Pad(size)
            && s[..BLOCK] == w.block(ManifestHeader(size)) && s[BLOCK..BLOCK + size] == encoded
            && s[BLOCK + size..BLOCK + size + Pad(size)] == Zeros(Pad(size))
            && s[BLOCK + size + Pad(size)..] == Body(w, members)
  {
  }

  /** Every bundle written from a prepared plan is one the inspector's limits admit, with the same
      manifest. */
  lemma {:induction false} WrittenIsABundle(l: Limits, w: Wire, members: seq<Member>)
    requires Faithful(l, w) && Prepared(l, w, members)
    ensures ManifestIn(l, w, Stream(w, members)) == Some((ManifestOf(members), w.digest(w.encode(ManifestOf(members)))))
  {
    ManifestComesFirst(l, w, members);
    BodyIsRead(l, w, members);
  }

  lemma {:induction false} ManifestComesFirst(l: Limits, w: Wire, members: seq<Member>)
    requires Faithful(l, w) && |w.encode(ManifestOf(members))| <= l.maxManifest
    ensures var encoded, s := w.encode(ManifestOf(members)), Stream(w, members);
            && ManifestSize(l, w, s) == Some(|encoded|)
            && s[BLOCK..BLOCK + |encoded|] == encoded
            && s[BLOCK + |encoded| + Pad(|encoded|)..] == Body(w, members)
  {
    var encoded := w.encode(ManifestOf(members));
    assert w.encodable(ManifestHeader(|encoded|)) && encoded != [];
    StreamParts(w, members);
  }

  lemma {:induction false} BodyIsRead(l: Limits, w: Wire, members: seq<Member>)
    requires Faithful(l, w) && Prepared(l, w, members)
    ensures var m := ManifestOf(members);
            Reading(l, w, w.encode(m), Body(w, members)) == Some((m, w.digest(w.encode(m))))
  {
    PreparedIsAcceptable(l, w, members);
    BodyIsFramed(l, w, members);
  }

  // ---------------------------------------------------------------- the inspector

  class BoundReader {
    const data: Bytes
    var pos: nat
    var left: nat

    constructor (data: Bytes, bound: nat)
      ensures this.data == data && pos == 0 && left == bound
    {
      this.data, pos, left := data, 0, bound;
    }

    ghost predicate Valid() reads this { pos <= |data| }

    ghost function Rest(): Bytes
      requires Valid()
      reads this
    {
      data[pos..]
    }

    /** All of `n` bytes, or a failure: too little data, or data past the bound. */
    method ReadFull(n: nat) returns (r: Option<Bytes>)
      requires Valid()
      modifies this
      ensures Valid()
      ensures r.Some? <==> n <= old(left) && n <= |old(Rest())|
      ensures r.Some? ==> r.value == old(Rest())[..n] && Rest() == old(Rest())[n..] && left == old(left) - n
    {
      if n > left || n > |data| - pos { return None; }
      r := Some(data[pos..pos + n]);
      pos, left := pos + n, left - n;
    }
  }

  datatype Next = Bad | End | Entry(header: Header)

  /** A header block, or the two zero blocks that end an archive. */
  method NextHeader(r: BoundReader, w: Wire) returns (next: Next)
    requires r.Valid() && 2 * BLOCK <= r.left
    modifies r
    ensures r.Valid()
    ensures var s := old(r.Rest());
            && (next.Entry? <==> |s| >= BLOCK && !AllZero(s[..BLOCK]) && w.parse(s[..BLOCK]).Some?)
            && (next.End? <==> |s| >= 2 * BLOCK && AllZero(s[..2 * BLOCK]))
            && (next.Entry? ==> next.header == w.parse(s[..BLOCK]).value && r.Rest() == s[BLOCK..] && r.left == old(r.left) - BLOCK)
            && (next.End? ==> r.Rest() == s[2 * BLOCK..])
  {
    ghost var s := r.Rest();
    var block := r.ReadFull(BLOCK);
    if block.None? { return Bad; }
    if AllZero(block.value) {
      var second := r.ReadFull(BLOCK);
      if second.None? { return Bad; }
      assert s[..2 * BLOCK] == block.value + second.value;
      if !AllZero(second.value) { return Bad; }
      return End;
    }
    assert |s| >= 2 * BLOCK ==> forall i :: 0 <= i < BLOCK ==> s[..2 * BLOCK][i] == s[..BLOCK][i];
    var parsed := w.parse(block.value);
    return if parsed.Some? then Entry(parsed.value) else Bad;
  }

  method Padding(r: BoundReader, size: nat) returns (ok: bool)
    requires r.Valid() && Pad(size) <= r.left
    modifies r
    ensures r.Valid()
    ensures ok <==> |old(r.Rest())| >= Pad(size) && AllZero(old(r.Rest())[..Pad(size)])
    ensures ok ==> r.Rest() == old(r.Rest())[Pad(size)..] && r.left == old(r.left) - Pad(size)
  {
    var b := r.ReadFull(Pad(size));
    return b.Some? && AllZero(b.value);
  }

  /** A payload of `size` bytes, one buffer at a time. */
  method ReadPayload(r: BoundReader, size: nat) returns (content: Option<Bytes>)
    requires r.Valid() && size <= r.left
    modifies r
    ensures r.Valid()
    ensures content.Some? <==> |old(r.Rest())| >= size
    ensures content.Some? ==>
              content.value == old(r.Rest())[..size] && r.Rest() == old(r.Rest())[size..] && r.left == old(r.left) - size
  {
    ghost var s := r.Rest();
    var bytes: Bytes := [];
    var left: nat := size;
    while left > 0
      invariant r.Valid() && left <= size
      invariant size - left <= |s| && bytes == s[..size - left] && r.Rest() == s[size - left..]
      invariant r.left == old(r.left) - (size - left)
    {
      var n := if left < BUFFER then left else BUFFER;
      var chunk := r.ReadFull(n);
      if chunk.None? { return None; }
      bytes := bytes + chunk.value;
      left := left - n;
    }
    return Some(bytes);
  }

  /** A payload with its zero padding up to the next block. */
  method ReadPadded(r: BoundReader, size: nat) returns (content: Option<Bytes>)
    requires r.Valid() && size + Pad(size) <= r.left
    modifies r
    ensures r.Valid()
    ensures content.Some? <==>
              var s := old(r.Rest()); |s| >= size + Pad(size) && AllZero(s[size..size + Pad(size)])
    ensures content.Some? ==>
              var s := old(r.Rest());
              && content.value == s[..size] && r.Rest() == s[size + Pad(size)..]
              && r.left == old(r.left) - size - Pad(size)
  {
    ghost var s := r.Rest();
    content := ReadPayload(r, size);
    if content.None? { return; }
    assert |s| >= size + Pad(size) ==> s[size..][..Pad(size)] == s[size..size + Pad(size)];
    var padded := Padding(r, size);
    if !padded { return None; }
    assert s[size..][Pad(size)..] == s[size + Pad(size)..];
  }

  method ReadMember(r: BoundReader, w: Wire, f: File) returns (ok: bool)
    requires r.Valid() && FramedSize(f) + BLOCK <= r.left
    modifies r
    ensures r.Valid()
    ensures ok <==> FramesOne(w, old(r.Rest()), f)
    ensures ok ==> r.Rest() == old(r.Rest())[FramedSize(f)..] && r.left == old(r.left) - FramedSize(f)
  {
    ghost var s := r.Rest();
    var next := NextHeader(r, w);
    if !next.Entry? || next.header != HeaderOf(f) { return false; }
    SlicesAfterHeader(s, f.bytes);
    var content := ReadPadded(r, f.bytes);
    return content.Some? && w.digest(content.value) == f.sha256;
  }

  lemma {:induction false} SlicesAfterHeader(s: Bytes, size: nat)
    requires |s| >= BLOCK
    ensures |s[BLOCK..]| == |s| - BLOCK
    ensures |s| >= BLOCK + size + Pad(size) ==>
              && s[BLOCK..][..size] == s[BLOCK..BLOCK + size]
              && s[BLOCK..][size..size + Pad(size)] == s[BLOCK + size..BLOCK + size + Pad(size)]
              && s[BLOCK..][size + Pad(size)..] == s[BLOCK + size + Pad(size)..]
  {
  }

  lemma {:induction false} TotalGrows(files: seq<File>, i: nat)
    requires i < |files|
    ensures TotalBytes(files[..i + 1]) == TotalBytes(files[..i]) + files[i].bytes <= TotalBytes(files)
    decreases |files|
  {
    assert files[..i + 1][..i] == files[..i];
    if i + 1 == |files| {
      assert files[..i + 1] == files;
    } else {
      TotalGrows(files[..|files| - 1], i);
      assert files[..|files| - 1][..i + 1] == files[..i + 1];
    }
  }

  /** The members in manifest order, then the end of the archive and of the stream. The bound on
      the expanded stream never cuts a well-framed one short. */
  method ReadMembers(r: BoundReader, w: Wire, files: seq<File>) returns (ok: bool)
    requires r.Valid() && TotalBytes(files) + (|files| + 1) * 2 * BLOCK <= r.left
    modifies r
    ensures r.Valid()
    ensures ok <==> FramesAll(w, old(r.Rest()), files)
  {
    ghost var s := r.Rest();
    for i := 0 to |files|
      invariant r.Valid()
      invariant FramesAll(w, s, files) <==> FramesAll(w, r.Rest(), files[i..])
      invariant TotalBytes(files) - TotalBytes(files[..i]) + (|files| - i + 1) * 2 * BLOCK <= r.left
    {
      TotalGrows(files, i);
      assert files[i..][1..] == files[i + 1..];
      ok := ReadMember(r, w, files[i]);
      if !ok { return; }
    }
    ghost var tail := r.Rest();
    assert files[|files|..] == [] && files[..|files|] == files;
    var next := NextHeader(r, w);
    if !next.End? {
      assert |tail| == 2 * BLOCK ==> tail[..2 * BLOCK] == tail;
      return false;
    }
    ok := r.pos == |r.data|;
    assert ok ==> tail[..2 * BLOCK] == tail;
  }

  lemma {:induction false} AscendingExtends(paths: seq<string>, p: string)
    requires p != ""
    ensures Ascending(paths + [p]) <==>
              Ascending(paths) && !Leq(p, if paths == [] then "" else paths[|paths| - 1])
  {
    var all := paths + [p];
    if paths != [] {
      var last := paths[|paths| - 1];
      LeqTotal(p, last);
      if Ascending(all) { assert Leq(all[|paths| - 1], all[|paths|]) && all[|paths| - 1] != all[|paths|]; }
      forall i | 0 <= i < |paths| && Ascending(paths) && !Leq(p, last) ensures Leq(paths[i], p) && paths[i] != p {
        if i < |paths| - 1 {
          LeqTransitive(paths[i], last, p);
          LeqTotal(paths[i], last);
        }
      }
      if Ascending(all) {
        forall i, j | 0 <= i < j < |paths| ensures Leq(paths[i], paths[j]) && paths[i] != paths[j] {
          assert all[i] == paths[i] && all[j] == paths[j];
        }
      }
    }
  }

  /** The empty path sorts before every admissible one. */
  function LastPath(files: seq<File>): string { if files == [] then "" else files[|files| - 1].path }

  /** What is asked of a listed file, given the files before it. */
  predicate StepOk(l: Limits, before: seq<File>, f: File) {
    && FileOk(l, f)
    && AllCompatible(FilePaths(before) + [f.path])
    && !Leq(f.path, LastPath(before)) && f.bytes <= l.maxExpanded - TotalBytes(before)
  }

  predicate ListedOk(l: Limits, files: seq<File>) {
    files == [] || (ListedOk(l, files[..|files| - 1]) && StepOk(l, files[..|files| - 1], files[|files| - 1]))
  }

  lemma {:induction false} EachExtends(l: Limits, files: seq<File>, f: File)
    ensures EachOk(l, files + [f]) <==> EachOk(l, files) && FileOk(l, f)
  {
    var all := files + [f];
    assert all[|files|] == f && forall i :: 0 <= i < |files| ==> all[i] == files[i];
  }

  lemma {:induction false} OrderExtends(l: Limits, files: seq<File>, f: File)
    requires FileOk(l, f)
    ensures Ascending(FilePaths(files + [f])) <==> Ascending(FilePaths(files)) && !Leq(f.path, LastPath(files))
  {
    assert FilePaths(files + [f]) == FilePaths(files) + [f.path];
    AscendingExtends(FilePaths(files), f.path);
  }

  lemma {:induction false} FilesOkExtends(l: Limits, files: seq<File>, f: File)
    ensures FilesOk(l, files + [f]) <==> FilesOk(l, files) && StepOk(l, files, f)
  {
    var all := files + [f];
    assert FilePaths(all) == FilePaths(files) + [f.path];
    EachExtends(l, files, f);
    if FileOk(l, f) { OrderExtends(l, files, f); }
    CompatiblePrefix(FilePaths(all), |files|);
    assert FilePaths(all)[..|files|] == FilePaths(files);
    assert all[..|files|] == files;
  }

  /** Checking file by file is checking the list. */
  lemma {:induction false} ListedIsOk(l: Limits, files: seq<File>)
    ensures ListedOk(l, files) <==> FilesOk(l, files)
  {
    if files != [] {
      var init, f := files[..|files| - 1], files[|files| - 1];
      assert files == init + [f];
      ListedIsOk(l, init);
      FilesOkExtends(l, init, f);
    }
  }

  lemma {:induction false} ListedPrefix(l: Limits, files: seq<File>, n: nat)
    requires n <= |files|
    ensures ListedOk(l, files) ==> ListedOk(l, files[..n])
    decreases |files|
  {
    if n == |files| {
      assert files[..n] == files;
    } else {
      assert files[..|files| - 1][..n] == files[..n];
      ListedPrefix(l, files[..|files| - 1], n);
    }
  }

  /** One listed file after the files before it. */
  method CheckFile(seen: PathSet, l: Limits, ghost before: seq<File>, f: File, last: string, total: nat) returns (ok: bool)
    requires seen.Valid() && seen.added == FilePaths(before)
    requires last == LastPath(before) && total == TotalBytes(before)
    modifies seen
    ensures ok <==> StepOk(l, before, f)
    ensures ok ==> seen.Valid() && seen.added == FilePaths(before + [f])
  {
    assert FilePaths(before + [f]) == FilePaths(before) + [f.path];
    ok := seen.Add(f.path);
    if !ok { return; }
    return !(Depth(f.path) > l.maxDepth || Leq(f.path, last) || f.bytes > l.maxExpanded - total || !ValidDigest(f.sha256));
  }

  lemma {:induction false} ListedStep(l: Limits, files: seq<File>, i: nat)
    requires i < |files|
    ensures ListedOk(l, files[..i + 1]) <==> ListedOk(l, files[..i]) && StepOk(l, files[..i], files[i])
    ensures TotalBytes(files[..i + 1]) == TotalBytes(files[..i]) + files[i].bytes
    ensures files[..i + 1] == files[..i] + [files[i]]
  {
    assert files[..i + 1][..i] == files[..i];
  }

  /** The manifest's own rules, checked in the order its files are listed. */
  method CheckManifest(l: Limits, m: Manifest) returns (ok: bool)
    ensures ok <==> Acceptable(l, m)
  {
    if m.version != VERSION || m.files == [] || |m.files| > l.maxFiles { return false; }
    ListedIsOk(l, m.files);
    ok := CheckFiles(l, m.files);
  }

  method CheckFiles(l: Limits, files: seq<File>) returns (ok: bool)
    ensures ok <==> ListedOk(l, files)
  {
    var seen := new PathSet();
    var total, last := 0, "";
    for i := 0 to |files|
      invariant fresh(seen) && seen.Valid() && seen.added == FilePaths(files[..i])
      invariant ListedOk(l, files[..i])
      invariant last == LastPath(files[..i]) && total == TotalBytes(files[..i])
    {
      ListedStep(l, files, i);
      ListedPrefix(l, files, i + 1);
      ok := CheckFile(seen, l, files[..i], files[i], last, total);
      if !ok { return; }
      total := total + files[i].bytes;
      last := files[i].path;
    }
    assert files[..|files|] == files;
    return true;
  }

  method ReadManifest(r: BoundReader, l: Limits, w: Wire) returns (encoded: Option<Bytes>)
    requires r.Valid() && l.maxManifest + 2 * BLOCK <= r.left
    modifies r
    ensures r.Valid()
    ensures var s := old(r.Rest());
            var size := ManifestSize(l, w, s);
            && (encoded.Some? <==> size.Some?)
            && (encoded.Some? ==>
                  && encoded.value == s[BLOCK..BLOCK + size.value]
                  && r.Rest() == s[BLOCK + size.value + Pad(size.value)..]
                  && r.left >= old(r.left) - l.maxManifest - 2 * BLOCK)
  {
    ghost var s := r.Rest();
    var next := NextHeader(r, w);
    if !next.Entry? || next.header.name != MANIFEST_PATH || next.header.size < 1 || next.header.size > l.maxManifest {
      return None;
    }
    SlicesAfterHeader(s, next.header.size);
    encoded := ReadPadded(r, next.header.size);
  }

  /** After the manifest, the rest of the stream decides. */
  method ReadFirst(r: BoundReader, l: Limits, w: Wire) returns (encoded: Option<Bytes>)
    requires r.Valid() && l.maxManifest + 2 * BLOCK <= r.left
    modifies r
    ensures r.Valid() && (encoded.Some? ==> r.left >= old(r.left) - l.maxManifest - 2 * BLOCK)
    ensures ManifestIn(l, w, old(r.Rest())) == if encoded.None? then None else Reading(l, w, encoded.value, r.Rest())
  {
    ghost var s := r.Rest();
    encoded := ReadManifest(r, l, w);
    if encoded.Some? { ThenReading(l, w, s, ManifestSize(l, w, s).value, encoded.value, r.Rest()); }
  }

  lemma {:induction false} ThenReading(l: Limits, w: Wire, s: Bytes, size: nat, encoded: Bytes, rest: Bytes)
    requires |s| >= BLOCK + size + Pad(size)
    requires encoded == s[BLOCK..BLOCK + size] && rest == s[BLOCK + size + Pad(size)..]
    ensures ReadingAt(l, w, s, size) == Reading(l, w, encoded, rest)
  {
    SameReading(l, w, s[BLOCK..BLOCK + size], s[BLOCK + size + Pad(size)..], encoded, rest);
  }

  lemma {:induction false} SameReading(l: Limits, w: Wire, e0: Bytes, r0: Bytes, e1: Bytes, r1: Bytes)
    requires e0 == e1 && r0 == r1
    ensures Reading(l, w, e0, r0) == Reading(l, w, e1, r1)
  {
  }

  /** From an encoded manifest to the manifest, if what follows it is exactly its archive. */
  method ReadArchive(r: BoundReader, l: Limits, w: Wire, encoded: Bytes) returns (found: Option<(Manifest, string)>)
    requires r.Valid() && l.maxExpanded + (l.maxFiles + 1) * 2 * BLOCK <= r.left
    modifies r
    ensures found == Reading(l, w, encoded, old(r.Rest()))
  {
    var m := w.decode(encoded);
    if m.None? { return None; }
    var sound := CheckManifest(l, m.value);
    if !sound { return None; }
    var framed := ReadMembers(r, w, m.value.files);
    if !framed { return None; }
    return Some((m.value, w.digest(encoded)));
  }

  /** The framing of the largest bundle the limits allow: two blocks for each file, for the manifest
      and for the end. */
  function ExpandedBound(l: Limits): (bound: nat)
    ensures bound == (l.maxExpanded + (l.maxFiles + 1) * 2 * BLOCK) + (l.maxManifest + 2 * BLOCK)
  {
    l.maxExpanded + l.maxManifest + (l.maxFiles + 1) * 1024 + 1024
  }

  method InspectStream(l: Limits, w: Wire, s: Bytes) returns (found: Option<(Manifest, string)>)
    ensures found == ManifestIn(l, w, s)
  {
    var r := new BoundReader(s, ExpandedBound(l));
    assert r.Rest() == s;
    var encoded := ReadFirst(r, l, w);
    if encoded.None? { return None; }
    found := ReadArchive(r, l, w, encoded.value);
  }

  /** The inspector accepts exactly the bundles, and reports what they say. */
  method Inspect(l: Limits, w: Wire, bundle: Bytes) returns (report: Option<Report>)
    ensures report == ReportOf(l, w, bundle)
  {
    if |bundle| > l.maxCompressed { return None; }
    var stream := w.inflate(bundle);
    if stream.None? { return None; }
    var m := InspectStream(l, w, stream.value);
    return if m.None? then None else Some(Report(m.value.0, m.value.1, |bundle|, w.digest(bundle)));
  }

  /** The round trip: what the writer reports, the inspector reports of the same bytes. */
  lemma {:induction false} WrittenIsInspected(l: Limits, w: Wire, members: seq<Member>)
    requires Faithful(l, w) && Prepared(l, w, members)
    requires |w.deflate(Stream(w, members))| <= l.maxCompressed
    ensures var bundle, m := w.deflate(Stream(w, members)), ManifestOf(members);
            ReportOf(l, w, bundle) == Some(Report(m, w.digest(w.encode(m)), |bundle|, w.digest(bundle)))
  {
    WrittenIsABundle(l, w, members);
    assert w.inflate(w.deflate(Stream(w, members))) == Some(Stream(w, members));
  }
}
