/** What a built snapshot has to do with the manifest and the listing it came from, said of its files
    alone, and that this decides it. */
module SnapshotContents {
  import opened Optional
  import opened Sorting
  import Pairwise
  import Sums
  import opened Snapshots

  const MANIFEST_AT := "control/execution-result.json"
  const STDOUT_AT := "control/stdout.log"
  const STDERR_AT := "control/stderr.log"
  const ENVIRONMENT_AT := "control/environment.json"
  const LOG_LIMIT: nat := 20 * 1024 * 1024
  const ENVIRONMENT_LIMIT: nat := 1024 * 1024

  /** The record of a listed artifact under a role. */
  function Record(w: Work, a: Artifact, role: Role, media: string): File {
    File(w.identify(a), a.path, role, media, w.workspace, a.bytes, a.sha256)
  }

  /** The runner's manifest is listed as the bytes that were read, and recorded. */
  predicate HasManifest(w: Work, raw: string, catalog: seq<Artifact>, files: seq<File>) {
    exists i :: 0 <= i < |catalog| && catalog[i].path == MANIFEST_AT
                && catalog[i].bytes == |raw| && catalog[i].sha256 == w.digest(raw)
                && Record(w, catalog[i], ManifestFile, "application/json") in files
  }

  /** A declared artifact is listed with the declared size and digest, and recorded. */
  predicate HasOutput(w: Work, d: Declared, catalog: seq<Artifact>, files: seq<File>) {
    exists i :: 0 <= i < |catalog| && catalog[i].path == "outputs/" + d.path
                && catalog[i].bytes == d.bytes && catalog[i].sha256 == d.sha256
                && Record(w, catalog[i], OutputFile, d.media) in files
  }

  predicate HasOutputs(w: Work, artifacts: seq<Declared>, catalog: seq<Artifact>, files: seq<File>) {
    forall i :: 0 <= i < |artifacts| ==> HasOutput(w, artifacts[i], catalog, files)
  }

  /** A control file, if it is listed at all, is small enough and recorded. */
  predicate HasControl(w: Work, path: string, role: Role, media: string, max: nat, catalog: seq<Artifact>, files: seq<File>) {
    forall i :: 0 <= i < |catalog| && catalog[i].path == path ==>
      catalog[i].bytes <= max && Record(w, catalog[i], role, media) in files
  }

  predicate HasControls(w: Work, catalog: seq<Artifact>, files: seq<File>) {
    && HasControl(w, STDOUT_AT, LogFile, "text/plain", LOG_LIMIT, catalog, files)
    && HasControl(w, STDERR_AT, LogFile, "text/plain", LOG_LIMIT, catalog, files)
    && HasControl(w, ENVIRONMENT_AT, ProvenanceFile, "application/json", ENVIRONMENT_LIMIT, catalog, files)
  }

  predicate IsOutput(artifacts: seq<Declared>, path: string) {
    exists i :: 0 <= i < |artifacts| && path == "outputs/" + artifacts[i].path
  }

  predicate IsListed(catalog: seq<Artifact>, path: string) { exists i :: 0 <= i < |catalog| && catalog[i].path == path }

  /** A path a snapshot may hold. */
  predicate Expected(artifacts: seq<Declared>, catalog: seq<Artifact>, path: string) {
    || path == MANIFEST_AT || IsOutput(artifacts, path)
    || ((path == STDOUT_AT || path == STDERR_AT || path == ENVIRONMENT_AT) && IsListed(catalog, path))
  }

  /** What the files hold, whatever else they hold. */
  predicate Holds(w: Work, raw: string, r: Outcome, catalog: seq<Artifact>, files: seq<File>) {
    && HasManifest(w, raw, catalog, files)
    && HasOutputs(w, r.artifacts, catalog, files)
    && HasControls(w, catalog, files)
  }

  predicate AllExpected(artifacts: seq<Declared>, catalog: seq<Artifact>, files: seq<File>) {
    forall i :: 0 <= i < |files| ==> Expected(artifacts, catalog, files[i].path)
  }

  predicate Ascending(files: seq<File>) {
    forall i, j :: 0 <= i < j < |files| ==> Leq(files[i].path, files[j].path) && files[i].path != files[j].path
  }

  /** The snapshot of this manifest over this listing: the manifest, every declared artifact as
      declared, the control files that exist, in ascending order, and nothing else. */
  predicate Collects(w: Work, raw: string, r: Outcome, catalog: seq<Artifact>, s: Snapshot) {
    && s.manifest == raw && Ascending(s.files)
    && Holds(w, raw, r, catalog, s.files) && AllExpected(r.artifacts, catalog, s.files)
  }

  // ---------------------------------------------------------------- it determines the snapshot

  lemma {:induction false} OneFileEach(files: seq<File>, f: File, g: File)
    requires Ascending(files) && f in files && g in files && f.path == g.path
    ensures f == g
  {
    var i :| 0 <= i < |files| && files[i] == f;
    var j :| 0 <= j < |files| && files[j] == g;
  }

  lemma {:induction false} OneArtifactEach(catalog: seq<Artifact>, i: nat, j: nat)
    requires Pairwise.Distinct(ArtifactPaths(catalog)) && i < |catalog| && j < |catalog| && catalog[i].path == catalog[j].path
    ensures catalog[i] == catalog[j]
  {
    assert ArtifactPaths(catalog)[i] == ArtifactPaths(catalog)[j];
  }

  lemma {:induction false} ManifestShared(w: Work, raw: string, catalog: seq<Artifact>, a: seq<File>, b: seq<File>, f: File)
    requires Pairwise.Distinct(ArtifactPaths(catalog)) && HasManifest(w, raw, catalog, a) && HasManifest(w, raw, catalog, b)
    requires Ascending(a) && f in a && f.path == MANIFEST_AT
    ensures f in b
  {
    var i :| 0 <= i < |catalog| && catalog[i].path == MANIFEST_AT && Record(w, catalog[i], ManifestFile, "application/json") in a;
    var j :| 0 <= j < |catalog| && catalog[j].path == MANIFEST_AT && Record(w, catalog[j], ManifestFile, "application/json") in b;
    OneArtifactEach(catalog, i, j);
    OneFileEach(a, f, Record(w, catalog[i], ManifestFile, "application/json"));
  }

  lemma {:induction false} OutputShared(w: Work, d: Declared, catalog: seq<Artifact>, a: seq<File>, b: seq<File>, f: File)
    requires Pairwise.Distinct(ArtifactPaths(catalog)) && HasOutput(w, d, catalog, a) && HasOutput(w, d, catalog, b)
    requires Ascending(a) && f in a && f.path == "outputs/" + d.path
    ensures f in b
  {
    var i :| 0 <= i < |catalog| && catalog[i].path == "outputs/" + d.path && Record(w, catalog[i], OutputFile, d.media) in a;
    var j :| 0 <= j < |catalog| && catalog[j].path == "outputs/" + d.path && Record(w, catalog[j], OutputFile, d.media) in b;
    OneArtifactEach(catalog, i, j);
    OneFileEach(a, f, Record(w, catalog[i], OutputFile, d.media));
  }

  lemma {:induction false} ControlShared(w: Work, path: string, role: Role, media: string, max: nat, catalog: seq<Artifact>, a: seq<File>, b: seq<File>, f: File)
    requires HasControl(w, path, role, media, max, catalog, a) && HasControl(w, path, role, media, max, catalog, b)
    requires Ascending(a) && f in a && f.path == path && IsListed(catalog, path)
    ensures f in b
  {
    var i :| 0 <= i < |catalog| && catalog[i].path == path;
    OneFileEach(a, f, Record(w, catalog[i], role, media));
  }

  lemma {:induction false} FileShared(w: Work, raw: string, r: Outcome, catalog: seq<Artifact>, s: Snapshot, t: Snapshot, f: File)
    requires Pairwise.Distinct(ArtifactPaths(catalog)) && Collects(w, raw, r, catalog, s) && Collects(w, raw, r, catalog, t) && f in s.files
    ensures f in t.files
  {
    var k :| 0 <= k < |s.files| && s.files[k] == f;
    assert Expected(r.artifacts, catalog, f.path);
    if f.path == MANIFEST_AT {
      ManifestShared(w, raw, catalog, s.files, t.files, f);
    } else if IsOutput(r.artifacts, f.path) {
      var i :| 0 <= i < |r.artifacts| && f.path == "outputs/" + r.artifacts[i].path;
      OutputShared(w, r.artifacts[i], catalog, s.files, t.files, f);
    } else if f.path == STDOUT_AT {
      ControlShared(w, STDOUT_AT, LogFile, "text/plain", LOG_LIMIT, catalog, s.files, t.files, f);
    } else if f.path == STDERR_AT {
      ControlShared(w, STDERR_AT, LogFile, "text/plain", LOG_LIMIT, catalog, s.files, t.files, f);
    } else {
      ControlShared(w, ENVIRONMENT_AT, ProvenanceFile, "application/json", ENVIRONMENT_LIMIT, catalog, s.files, t.files, f);
    }
  }

  lemma {:induction false} SameFirst(a: seq<File>, b: seq<File>)
    requires Ascending(a) && Ascending(b) && a != [] && b != [] && forall f :: f in a <==> f in b
    ensures a[0] == b[0]
  {
    assert a[0] in b && b[0] in a;
    var i :| 0 <= i < |b| && b[i] == a[0];
    var j :| 0 <= j < |a| && a[j] == b[0];
    LeqTotal(a[0].path, b[0].path);
  }

  lemma {:induction false} SameOrder(a: seq<File>, b: seq<File>)
    requires Ascending(a) && Ascending(b) && forall f :: f in a <==> f in b
    ensures a == b
  {
    assert a != [] ==> a[0] in a;
    assert b != [] ==> b[0] in b;
    if a != [] && b != [] {
      SameFirst(a, b);
      assert a == [a[0]] + a[1..] && b == [b[0]] + b[1..];
      forall f ensures f in a[1..] <==> f in b[1..] {
        assert f in a <==> f == a[0] || f in a[1..];
        assert f in b <==> f == b[0] || f in b[1..];
        assert a[0] !in a[1..] && b[0] !in b[1..];
      }
      SameOrder(a[1..], b[1..]);
    }
  }

  /** A manifest and a listing leave room for one snapshot. */
  lemma {:induction false} OneSnapshotEach(w: Work, raw: string, r: Outcome, catalog: seq<Artifact>, s: Snapshot, t: Snapshot)
    requires CatalogOk(w, catalog) && Collects(w, raw, r, catalog, s) && Collects(w, raw, r, catalog, t)
    ensures s == t
  {
    CatalogIsDistinct(w, catalog);
    forall f ensures f in s.files <==> f in t.files {
      if f in s.files { FileShared(w, raw, r, catalog, s, t, f); }
      if f in t.files { FileShared(w, raw, r, catalog, t, s, f); }
    }
    SameOrder(s.files, t.files);
  }

  lemma {:induction false} CatalogIsDistinct(w: Work, catalog: seq<Artifact>)
    requires CatalogOk(w, catalog)
    ensures Pairwise.Distinct(ArtifactPaths(catalog))
  {
  }

  // ---------------------------------------------------------------- the selection, want by want

  /** One entry of the selection list is honoured by these files. */
  predicate Honoured(w: Work, want: Want, listing: Listing, files: seq<File>) {
    && (want.required ==> want.path in listing)
    && (want.path in listing ==>
          Meets(want, listing[want.path]) && Record(w, listing[want.path], want.role, want.media) in files)
  }

  predicate AllHonoured(w: Work, wants: seq<Want>, listing: Listing, files: seq<File>) {
    forall i :: 0 <= i < |wants| ==> Honoured(w, wants[i], listing, files)
  }

  /** The picks honour every want, and are nothing but wanted. */
  lemma {:induction false} PicksHonour(w: Work, listing: Listing, wants: seq<Want>)
    requires Keyed(listing) && PickAll(listing, wants).Some?
    ensures AllHonoured(w, wants, listing, FilesOf(w, PickAll(listing, wants).value))
  {
    if wants != [] {
      var init, want := wants[..|wants| - 1], wants[|wants| - 1];
      PicksHonour(w, listing, init);
      var before, all := FilesOf(w, PickAll(listing, init).value), FilesOf(w, PickAll(listing, wants).value);
      assert before <= all;
      assert want.path in listing ==> all[|before|] == Record(w, listing[want.path], want.role, want.media);
      forall i | 0 <= i < |wants| ensures Honoured(w, wants[i], listing, all) {
        if i < |init| {
          assert init[i] == wants[i];
          StillHonoured(w, wants[i], listing, before, all);
        }
      }
    }
  }

  lemma {:induction false} StillHonoured(w: Work, want: Want, listing: Listing, before: seq<File>, all: seq<File>)
    requires Honoured(w, want, listing, before) && before <= all
    ensures Honoured(w, want, listing, all)
  {
    if want.path in listing {
      var i :| 0 <= i < |before| && before[i] == Record(w, listing[want.path], want.role, want.media);
      assert all[i] == before[i];
    }
  }

  /** Wants that can be honoured are picked. */
  lemma {:induction false} HonouredArePicked(w: Work, listing: Listing, wants: seq<Want>, files: seq<File>)
    requires AllHonoured(w, wants, listing, files)
    ensures PickAll(listing, wants).Some?
  {
    if wants != [] {
      HonouredArePicked(w, listing, wants[..|wants| - 1], files);
      assert Honoured(w, wants[|wants| - 1], listing, files);
    }
  }

  // ---------------------------------------------------------------- each want in plain terms

  lemma {:induction false} Listed(catalog: seq<Artifact>, path: string) returns (i: nat)
    requires Pairwise.Distinct(ArtifactPaths(catalog)) && path in ByPath(catalog)
    ensures i < |catalog| && catalog[i] == ByPath(catalog)[path] && catalog[i].path == path
  {
    ByPathIsKeyed(catalog);
    i :| 0 <= i < |catalog| && catalog[i] == ByPath(catalog)[path];
  }

  lemma {:induction false} ListedAs(catalog: seq<Artifact>, i: nat)
    requires Pairwise.Distinct(ArtifactPaths(catalog)) && i < |catalog|
    ensures catalog[i].path in ByPath(catalog) && ByPath(catalog)[catalog[i].path] == catalog[i]
  {
    ByPathFinds(catalog, catalog[i]);
  }

  /** Listed at a path with exact contents, and recorded. */
  predicate HasExactly(w: Work, path: string, role: Role, media: string, bytes: nat, sha256: string, catalog: seq<Artifact>, files: seq<File>) {
    exists i :: 0 <= i < |catalog| && catalog[i].path == path && catalog[i].bytes == bytes && catalog[i].sha256 == sha256
                && Record(w, catalog[i], role, media) in files
  }

  lemma {:induction false} ExactMeans(w: Work, path: string, role: Role, media: string, bytes: nat, sha256: string, catalog: seq<Artifact>, files: seq<File>)
    requires Pairwise.Distinct(ArtifactPaths(catalog))
    ensures HasExactly(w, path, role, media, bytes, sha256, catalog, files) <==>
              Honoured(w, Want(path, role, media, true, Some((bytes, sha256)), None), ByPath(catalog), files)
  {
    if path in ByPath(catalog) { var i := Listed(catalog, path); }
    forall i | 0 <= i < |catalog| && catalog[i].path == path
      ensures path in ByPath(catalog) && ByPath(catalog)[path] == catalog[i]
    {
      ListedAs(catalog, i);
    }
  }

  lemma {:induction false} ControlMeans(w: Work, path: string, role: Role, media: string, max: nat, catalog: seq<Artifact>, files: seq<File>)
    requires Pairwise.Distinct(ArtifactPaths(catalog))
    ensures HasControl(w, path, role, media, max, catalog, files) <==>
              Honoured(w, Want(path, role, media, false, None, Some(max)), ByPath(catalog), files)
  {
    if path in ByPath(catalog) { var i := Listed(catalog, path); }
    forall i | 0 <= i < |catalog| && catalog[i].path == path
      ensures path in ByPath(catalog) && ByPath(catalog)[path] == catalog[i]
    {
      ListedAs(catalog, i);
    }
  }

  lemma {:induction false} ManifestMeans(w: Work, raw: string, catalog: seq<Artifact>, files: seq<File>)
    requires Pairwise.Distinct(ArtifactPaths(catalog))
    ensures HasManifest(w, raw, catalog, files) <==> Honoured(w, ManifestWant(w, raw), ByPath(catalog), files)
  {
    ExactMeans(w, MANIFEST_AT, ManifestFile, "application/json", |raw|, w.digest(raw), catalog, files);
    assert HasManifest(w, raw, catalog, files) <==>
           HasExactly(w, MANIFEST_AT, ManifestFile, "application/json", |raw|, w.digest(raw), catalog, files);
  }

  lemma {:induction false} OutputMeans(w: Work, d: Declared, catalog: seq<Artifact>, files: seq<File>)
    requires Pairwise.Distinct(ArtifactPaths(catalog))
    ensures HasOutput(w, d, catalog, files) <==> Honoured(w, OutputWant(d), ByPath(catalog), files)
  {
    ExactMeans(w, "outputs/" + d.path, OutputFile, d.media, d.bytes, d.sha256, catalog, files);
    assert HasOutput(w, d, catalog, files) <==>
           HasExactly(w, "outputs/" + d.path, OutputFile, d.media, d.bytes, d.sha256, catalog, files);
  }

  lemma {:induction false} ControlsMean(w: Work, catalog: seq<Artifact>, files: seq<File>)
    requires Pairwise.Distinct(ArtifactPaths(catalog))
    ensures HasControls(w, catalog, files) <==> AllHonoured(w, LOG_WANTS, ByPath(catalog), files)
  {
    ControlMeans(w, STDOUT_AT, LogFile, "text/plain", LOG_LIMIT, catalog, files);
    ControlMeans(w, STDERR_AT, LogFile, "text/plain", LOG_LIMIT, catalog, files);
    ControlMeans(w, ENVIRONMENT_AT, ProvenanceFile, "application/json", ENVIRONMENT_LIMIT, catalog, files);
    assert LOG_WANTS[0] == Want(STDOUT_AT, LogFile, "text/plain", false, None, Some(LOG_LIMIT));
    assert LOG_WANTS[1] == Want(STDERR_AT, LogFile, "text/plain", false, None, Some(LOG_LIMIT));
    assert LOG_WANTS[2] == Want(ENVIRONMENT_AT, ProvenanceFile, "application/json", false, None, Some(ENVIRONMENT_LIMIT));
  }

  lemma {:induction false} ListHonoured(w: Work, first: Want, outs: seq<Want>, logs: seq<Want>, listing: Listing, files: seq<File>)
    ensures AllHonoured(w, [first] + outs + logs, listing, files) <==>
              Honoured(w, first, listing, files) && AllHonoured(w, outs, listing, files) && AllHonoured(w, logs, listing, files)
  {
    var wants := [first] + outs + logs;
    assert wants[0] == first;
    assert forall i :: 0 <= i < |outs| ==> wants[i + 1] == outs[i];
    assert forall i :: 0 <= i < |logs| ==> wants[i + 1 + |outs|] == logs[i];
  }

  lemma {:induction false} OutputsMean(w: Work, artifacts: seq<Declared>, catalog: seq<Artifact>, files: seq<File>)
    requires Pairwise.Distinct(ArtifactPaths(catalog))
    ensures HasOutputs(w, artifacts, catalog, files) <==>
              AllHonoured(w, OutputWants(artifacts), ByPath(catalog), files)
  {
    var outs := OutputWants(artifacts);
    forall i | 0 <= i < |outs|
      ensures HasOutput(w, artifacts[i], catalog, files) <==> Honoured(w, outs[i], ByPath(catalog), files)
    {
      OutputMeans(w, artifacts[i], catalog, files);
    }
    if HasOutputs(w, artifacts, catalog, files) {
      forall i | 0 <= i < |outs| ensures Honoured(w, outs[i], ByPath(catalog), files) {
        assert HasOutput(w, artifacts[i], catalog, files);
      }
    }
  }

  lemma {:induction false} HoldsMeans(w: Work, raw: string, r: Outcome, catalog: seq<Artifact>, files: seq<File>)
    requires Pairwise.Distinct(ArtifactPaths(catalog))
    ensures Holds(w, raw, r, catalog, files) <==>
              AllHonoured(w, Wants(w, raw, r), ByPath(catalog), files)
  {
    ManifestMeans(w, raw, catalog, files);
    OutputsMean(w, r.artifacts, catalog, files);
    ControlsMean(w, catalog, files);
    ListHonoured(w, ManifestWant(w, raw), OutputWants(r.artifacts), LOG_WANTS, ByPath(catalog), files);
  }

  lemma {:induction false} WantedIsExpected(w: Work, raw: string, r: Outcome, catalog: seq<Artifact>, path: string)
    requires path in WantPaths(Wants(w, raw, r)) && path in ByPath(catalog)
    ensures Expected(r.artifacts, catalog, path)
  {
    ByPathIsKeyed(catalog);
    var i :| 0 <= i < |catalog| && catalog[i] == ByPath(catalog)[path];
    var wants, outs := Wants(w, raw, r), OutputWants(r.artifacts);
    var k :| 0 <= k < |wants| && WantPaths(wants)[k] == path;
    if 1 <= k <= |outs| {
      assert wants[k] == outs[k - 1];
    } else if k > |outs| {
      assert wants[k] == LOG_WANTS[k - 1 - |outs|];
    }
  }

  // ---------------------------------------------------------------- what is built is that snapshot

  lemma {:induction false} SameMembers<T>(a: seq<T>, b: seq<T>)
    requires multiset(a) == multiset(b)
    ensures forall x :: x in a <==> x in b
  {
    assert forall x :: x in a <==> x in multiset(a);
    assert forall x :: x in b <==> x in multiset(b);
  }

  lemma {:induction false} AssembledAscends(w: Work, raw: string, picks: seq<Pick>)
    requires Pairwise.Distinct(PickPaths(picks))
    ensures Ascending(Assembled(w, raw, picks).files)
  {
    var files := Assembled(w, raw, picks).files;
    SortedPathsDiffer(w, picks, files);
    forall i, j | 0 <= i < j < |files| ensures files[i].path != files[j].path && Leq(files[i].path, files[j].path) {
      assert ArtifactPaths(CatalogOf(w, files))[i] != ArtifactPaths(CatalogOf(w, files))[j];
      assert Leq(PathOf(files[i]), PathOf(files[j]));
    }
  }

  lemma {:induction false} OnlyExpected(w: Work, raw: string, r: Outcome, catalog: seq<Artifact>, picks: seq<Pick>, f: File)
    requires Faithful(ByPath(catalog), Wants(w, raw, r), picks) && f in FilesOf(w, picks)
    ensures Expected(r.artifacts, catalog, f.path)
  {
    var i :| 0 <= i < |picks| && FilesOf(w, picks)[i] == f;
    WantedIsExpected(w, raw, r, catalog, picks[i].artifact.path);
  }

  lemma {:induction false} HeldByMembers(w: Work, raw: string, r: Outcome, catalog: seq<Artifact>, a: seq<File>, b: seq<File>)
    requires Holds(w, raw, r, catalog, a) && forall f :: f in a <==> f in b
    ensures Holds(w, raw, r, catalog, b)
  {
    forall i | 0 <= i < |r.artifacts| ensures HasOutput(w, r.artifacts[i], catalog, b) {
      assert HasOutput(w, r.artifacts[i], catalog, a);
    }
  }

  lemma {:induction false} AssembledHolds(w: Work, raw: string, r: Outcome, catalog: seq<Artifact>, picks: seq<Pick>, files: seq<File>)
    requires CatalogOk(w, catalog) && PickAll(ByPath(catalog), Wants(w, raw, r)) == Some(picks)
    requires multiset(files) == multiset(FilesOf(w, picks))
    ensures Holds(w, raw, r, catalog, files)
  {
    CatalogIsDistinct(w, catalog);
    ByPathIsKeyed(catalog);
    PicksHonour(w, ByPath(catalog), Wants(w, raw, r));
    HoldsMeans(w, raw, r, catalog, FilesOf(w, picks));
    SameMembers(FilesOf(w, picks), files);
    HeldByMembers(w, raw, r, catalog, FilesOf(w, picks), files);
  }

  lemma {:induction false} AssembledIsExpected(w: Work, raw: string, r: Outcome, catalog: seq<Artifact>, picks: seq<Pick>, files: seq<File>)
    requires Faithful(ByPath(catalog), Wants(w, raw, r), picks) && multiset(files) == multiset(FilesOf(w, picks))
    ensures AllExpected(r.artifacts, catalog, files)
  {
    SameMembers(FilesOf(w, picks), files);
    forall i | 0 <= i < |files| ensures Expected(r.artifacts, catalog, files[i].path) {
      assert files[i] in FilesOf(w, picks);
      OnlyExpected(w, raw, r, catalog, picks, files[i]);
    }
  }

  /** Whatever can be picked assembles into the snapshot of this manifest and listing. */
  lemma {:induction false} AssembledCollects(w: Work, raw: string, r: Outcome, catalog: seq<Artifact>, picks: seq<Pick>)
    requires CatalogOk(w, catalog) && Consistent(r) && PickAll(ByPath(catalog), Wants(w, raw, r)) == Some(picks)
    ensures Collects(w, raw, r, catalog, Assembled(w, raw, picks))
  {
    var files := Assembled(w, raw, picks).files;
    PicksAreListed(w, raw, r, catalog);
    AssembledAscends(w, raw, picks);
    AssembledHolds(w, raw, r, catalog, picks, files);
    AssembledIsExpected(w, raw, r, catalog, picks, files);
  }

  function Bytes(f: File): nat { f.bytes }

  lemma {:induction false} PickedBytes(w: Work, picks: seq<Pick>)
    ensures TotalBytes(picks) == Sums.Sum(Bytes, FilesOf(w, picks))
  {
    if picks != [] {
      PickedBytes(w, picks[..|picks| - 1]);
      assert FilesOf(w, picks)[..|picks| - 1] == FilesOf(w, picks[..|picks| - 1]);
    }
  }

  /** The snapshot stays within the limits, as stored. */
  predicate Admissible(w: Work, cfg: Config, s: Snapshot) {
    && Sums.Sum(Bytes, s.files) <= cfg.maxBytes && |s.files| <= cfg.maxFiles
    && w.encodedBytes(s) <= MAX_SNAPSHOT
  }

  lemma {:induction false} AssembledFits(w: Work, raw: string, cfg: Config, picks: seq<Pick>)
    ensures var s := Assembled(w, raw, picks);
            Admissible(w, cfg, s) <==> Fits(cfg, picks) && w.encodedBytes(s) <= MAX_SNAPSHOT
  {
    var files, unsorted := Assembled(w, raw, picks).files, FilesOf(w, picks);
    PickedBytes(w, picks);
    Sums.SumPermuted(Bytes, unsorted, files);
    assert |files| == |multiset(files)| && |unsorted| == |multiset(unsorted)|;
  }

  /** The manifest parses and agrees with the job, and the listing is one of this attempt's. */
  predicate Collectable(w: Work, raw: string, catalog: seq<Artifact>, cfg: Config) {
    && cfg.Valid() && |catalog| <= cfg.maxFiles && w.parse(raw).Some? && CatalogOk(w, catalog) && Consistent(w.parse(raw).value)
  }

  /** A snapshot is built exactly when it is the one this manifest and listing determine and the
      limits allow it: in particular nothing is built exactly when there is no such snapshot. */
  lemma {:induction false} BuiltExactly(w: Work, raw: string, catalog: seq<Artifact>, cfg: Config, s: Snapshot)
    ensures Build(w, raw, catalog, cfg) == Some(s) <==>
              && Collectable(w, raw, catalog, cfg)
              && Collects(w, raw, w.parse(raw).value, catalog, s)
              && Admissible(w, cfg, s)
  {
    if Collectable(w, raw, catalog, cfg) {
      var r := w.parse(raw).value;
      if Build(w, raw, catalog, cfg) == Some(s) {
        var picks := BuiltFrom(w, raw, catalog, cfg);
        AssembledCollects(w, raw, r, catalog, picks);
        AssembledFits(w, raw, cfg, picks);
      }
      if Collects(w, raw, r, catalog, s) && Admissible(w, cfg, s) {
        CollectedIsBuilt(w, raw, catalog, cfg, s);
      }
    }
  }

  lemma {:induction false} CollectedIsBuilt(w: Work, raw: string, catalog: seq<Artifact>, cfg: Config, s: Snapshot)
    requires Collectable(w, raw, catalog, cfg) && Collects(w, raw, w.parse(raw).value, catalog, s) && Admissible(w, cfg, s)
    ensures Build(w, raw, catalog, cfg) == Some(s)
  {
    var r := w.parse(raw).value;
    CatalogIsDistinct(w, catalog);
    HoldsMeans(w, raw, r, catalog, s.files);
    HonouredArePicked(w, ByPath(catalog), Wants(w, raw, r), s.files);
    var picks := PickAll(ByPath(catalog), Wants(w, raw, r)).value;
    AssembledCollects(w, raw, r, catalog, picks);
    OneSnapshotEach(w, raw, r, catalog, s, Assembled(w, raw, picks));
    AssembledFits(w, raw, cfg, picks);
    BuildsTo(w, raw, catalog, cfg, picks);
  }

  // ---------------------------------------------------------------- when there is no snapshot

  predicate ListedExactly(catalog: seq<Artifact>, path: string, bytes: nat, sha256: string) {
    exists i :: 0 <= i < |catalog| && catalog[i].path == path && catalog[i].bytes == bytes && catalog[i].sha256 == sha256
  }

  predicate ListedWithin(catalog: seq<Artifact>, path: string, max: nat) {
    forall i :: 0 <= i < |catalog| && catalog[i].path == path ==> catalog[i].bytes <= max
  }

  /** The listing has what the manifest promises: the manifest itself and every declared artifact,
      unchanged, and no control file too large. */
  predicate Supplied(w: Work, raw: string, r: Outcome, catalog: seq<Artifact>) {
    && ListedExactly(catalog, MANIFEST_AT, |raw|, w.digest(raw))
    && (forall i :: 0 <= i < |r.artifacts| ==>
          ListedExactly(catalog, "outputs/" + r.artifacts[i].path, r.artifacts[i].bytes, r.artifacts[i].sha256))
    && ListedWithin(catalog, STDOUT_AT, LOG_LIMIT) && ListedWithin(catalog, STDERR_AT, LOG_LIMIT)
    && ListedWithin(catalog, ENVIRONMENT_AT, ENVIRONMENT_LIMIT)
  }

  function Records(w: Work, catalog: seq<Artifact>, role: Role, media: string): (r: seq<File>)
    ensures |r| == |catalog| && forall i :: 0 <= i < |r| ==> r[i] == Record(w, catalog[i], role, media)
  {
    seq(|catalog|, i requires 0 <= i < |catalog| => Record(w, catalog[i], role, media))
  }

  function OutputRecords(w: Work, artifacts: seq<Declared>, catalog: seq<Artifact>): (r: seq<File>)
    ensures forall d, i :: 0 <= d < |artifacts| && 0 <= i < |catalog| ==> Record(w, catalog[i], OutputFile, artifacts[d].media) in r
  {
    if artifacts == [] then []
    else
      var init := artifacts[..|artifacts| - 1];
      var records := Records(w, catalog, OutputFile, artifacts[|artifacts| - 1].media);
      assert forall i :: 0 <= i < |catalog| ==> records[i] in records;
      OutputRecords(w, init, catalog) + records
  }

  /** Every record a snapshot over this listing could need, and more. */
  function AllRecords(w: Work, r: Outcome, catalog: seq<Artifact>): (files: seq<File>)
    ensures forall i :: 0 <= i < |catalog| ==>
              && Record(w, catalog[i], ManifestFile, "application/json") in files
              && Record(w, catalog[i], LogFile, "text/plain") in files
              && Record(w, catalog[i], ProvenanceFile, "application/json") in files
    ensures forall d, i :: 0 <= d < |r.artifacts| && 0 <= i < |catalog| ==>
              Record(w, catalog[i], OutputFile, r.artifacts[d].media) in files
  {
    var manifests := Records(w, catalog, ManifestFile, "application/json");
    var logs := Records(w, catalog, LogFile, "text/plain");
    var provenance := Records(w, catalog, ProvenanceFile, "application/json");
    assert forall i :: 0 <= i < |catalog| ==> manifests[i] in manifests && logs[i] in logs && provenance[i] in provenance;
    manifests + logs + provenance + OutputRecords(w, r.artifacts, catalog)
  }

  lemma {:induction false} SuppliedHolds(w: Work, raw: string, r: Outcome, catalog: seq<Artifact>)
    requires Supplied(w, raw, r, catalog)
    ensures Holds(w, raw, r, catalog, AllRecords(w, r, catalog))
  {
    var files := AllRecords(w, r, catalog);
    forall d | 0 <= d < |r.artifacts| ensures HasOutput(w, r.artifacts[d], catalog, files) {
      var i :| 0 <= i < |catalog| && catalog[i].path == "outputs/" + r.artifacts[d].path
               && catalog[i].bytes == r.artifacts[d].bytes && catalog[i].sha256 == r.artifacts[d].sha256;
      assert Record(w, catalog[i], OutputFile, r.artifacts[d].media) in files;
    }
  }

  lemma {:induction false} HeldIsSupplied(w: Work, raw: string, r: Outcome, catalog: seq<Artifact>, files: seq<File>)
    requires Holds(w, raw, r, catalog, files)
    ensures Supplied(w, raw, r, catalog)
  {
    forall d | 0 <= d < |r.artifacts|
      ensures ListedExactly(catalog, "outputs/" + r.artifacts[d].path, r.artifacts[d].bytes, r.artifacts[d].sha256)
    {
      assert HasOutput(w, r.artifacts[d], catalog, files);
    }
  }

  /** A listing that supplies the manifest determines a snapshot; any other has none. */
  lemma {:induction false} SuppliedExactly(w: Work, raw: string, r: Outcome, catalog: seq<Artifact>)
    requires CatalogOk(w, catalog) && Consistent(r)
    ensures Supplied(w, raw, r, catalog) <==> exists s :: Collects(w, raw, r, catalog, s)
  {
    if s :| Collects(w, raw, r, catalog, s) {
      HeldIsSupplied(w, raw, r, catalog, s.files);
    }
    if Supplied(w, raw, r, catalog) {
      SuppliedHolds(w, raw, r, catalog);
      CatalogIsDistinct(w, catalog);
      HoldsMeans(w, raw, r, catalog, AllRecords(w, r, catalog));
      HonouredArePicked(w, ByPath(catalog), Wants(w, raw, r), AllRecords(w, r, catalog));
      AssembledCollects(w, raw, r, catalog, PickAll(ByPath(catalog), Wants(w, raw, r)).value);
    }
  }

  /** Nothing is built exactly when the inputs are no attempt's, the listing lacks or contradicts what
      the manifest promises, or the one snapshot they determine is over a limit. */
  lemma {:induction false} RefusedExactly(w: Work, raw: string, catalog: seq<Artifact>, cfg: Config)
    ensures Build(w, raw, catalog, cfg).None? <==>
              || !Collectable(w, raw, catalog, cfg)
              || !Supplied(w, raw, w.parse(raw).value, catalog)
              || (exists s :: Collects(w, raw, w.parse(raw).value, catalog, s) && !Admissible(w, cfg, s))
  {
    if Collectable(w, raw, catalog, cfg) {
      var r := w.parse(raw).value;
      SuppliedExactly(w, raw, r, catalog);
      if Build(w, raw, catalog, cfg).Some? {
        var s := Build(w, raw, catalog, cfg).value;
        BuiltExactly(w, raw, catalog, cfg, s);
        assert Collects(w, raw, r, catalog, s);
        forall t | Collects(w, raw, r, catalog, t) ensures Admissible(w, cfg, t) { OneSnapshotEach(w, raw, r, catalog, s, t); }
      } else if Supplied(w, raw, r, catalog) {
        var s :| Collects(w, raw, r, catalog, s);
        BuiltExactly(w, raw, catalog, cfg, s);
      }
    }
  }
}
