/** The collected result of an attempt: building it from a complete provider listing, and
    re-validating a stored one by building it again from its own files. */
module Snapshots {
  import opened Optional
  import opened Names
  import opened Sorting
  import Collisions
  import Pairwise

  const MANIFEST_PATH := "control/execution-result.json"
  const MAX_MANIFEST: nat := 0x10_0000
  const MAX_SNAPSHOT: nat := 0x100_0000
  const MAX_FILES: nat := 10_004
  const MAX_BYTES: nat := 0x1_0000_0000

  datatype Artifact = Artifact(remote: string, path: string, bytes: nat, sha256: string)
  datatype Declared = Declared(path: string, bytes: nat, sha256: string, media: string)
  datatype Output = Output(path: string, directory: bool, required: bool, maxBytes: nat)

  /** A parsed runner manifest beside the outputs the job declared. */
  datatype Outcome = Outcome(completed: bool, artifacts: seq<Declared>, outputs: seq<Output>)

  datatype Role = ManifestFile | OutputFile | LogFile | ProvenanceFile
  datatype File = File(id: string, path: string, role: Role, media: string, workspace: string, bytes: nat, sha256: string)
  datatype Snapshot = Snapshot(manifest: string, files: seq<File>)

  datatype Config = Config(maxBytes: nat, maxFiles: nat) {
    predicate Valid() { 0 < maxBytes <= MAX_BYTES && 1 <= maxFiles <= MAX_FILES }
  }

  const DEFAULT := Config(MAX_BYTES, MAX_FILES)

  /** The claimed attempt, with the encodings it is checked through. */
  datatype Work = Work(
    remote: string,
    workspace: string,
    parse: string -> Option<Outcome>,
    digest: string -> string,
    validDigest: string -> bool,
    validWorkspace: string -> bool,
    validName: string -> bool,
    identify: Artifact -> string,
    encodedBytes: Snapshot -> nat)

  // ---------------------------------------------------------------- what the manifest declares

  predicate Covers(o: Output, path: string) {
    if o.directory then o.path + "/" <= path else o.path == path
  }

  /** The first declared output a path belongs to. */
  function Matched(outputs: seq<Output>, path: string): (r: Option<nat>)
    ensures r.Some? ==> r.value < |outputs| && Covers(outputs[r.value], path)
    ensures forall i :: 0 <= i < |outputs| && Covers(outputs[i], path) ==> r.Some? && r.value <= i
  {
    if outputs == [] then None
    else if Covers(outputs[0], path) then Some(0)
    else
      var rest := Matched(outputs[1..], path);
      assert forall i :: 1 <= i < |outputs| ==> outputs[1..][i - 1] == outputs[i];
      if rest.None? then None else Some(rest.value + 1)
  }

  function SizeOf(outputs: seq<Output>, artifacts: seq<Declared>, o: nat): nat {
    if artifacts == [] then 0
    else
      var a := artifacts[|artifacts| - 1];
      SizeOf(outputs, artifacts[..|artifacts| - 1], o) + if Matched(outputs, a.path) == Some(o) then a.bytes else 0
  }

  function CountOf(outputs: seq<Output>, artifacts: seq<Declared>, o: nat): nat {
    if artifacts == [] then 0
    else
      var a := artifacts[|artifacts| - 1];
      CountOf(outputs, artifacts[..|artifacts| - 1], o) + if Matched(outputs, a.path) == Some(o) then 1 else 0
  }

  /** Each artifact belongs to a declared output and fits what the ones before it left of it. */
  predicate Declares(outputs: seq<Output>, artifacts: seq<Declared>) {
    if artifacts == [] then true
    else
      var init, a := artifacts[..|artifacts| - 1], artifacts[|artifacts| - 1];
      var m := Matched(outputs, a.path);
      && Declares(outputs, init)
      && m.Some? && (outputs[m.value].maxBytes > 0 ==> SizeOf(outputs, init, m.value) + a.bytes <= outputs[m.value].maxBytes)
  }

  /** Equivalently: all belong to some output, and no bounded output is overfull. */
  lemma {:induction false} DeclaresMeans(outputs: seq<Output>, artifacts: seq<Declared>)
    ensures Declares(outputs, artifacts) <==>
              && (forall i :: 0 <= i < |artifacts| ==> Matched(outputs, artifacts[i].path).Some?)
              && WithinBounds(outputs, artifacts)
  {
    if artifacts != [] {
      var init, a := artifacts[..|artifacts| - 1], artifacts[|artifacts| - 1];
      DeclaresMeans(outputs, init);
      assert artifacts == init + [a];
      SizesGrow(outputs, artifacts);
      if Matched(outputs, a.path).Some? { OneMoreFits(outputs, init, artifacts, a, Matched(outputs, a.path).value); }
    }
  }

  predicate WithinBounds(outputs: seq<Output>, artifacts: seq<Declared>) {
    forall o :: 0 <= o < |outputs| && outputs[o].maxBytes > 0 ==> SizeOf(outputs, artifacts, o) <= outputs[o].maxBytes
  }

  /** Only the output the artifact matches can become overfull. */
  lemma {:induction false} OneMoreFits(outputs: seq<Output>, init: seq<Declared>, artifacts: seq<Declared>, a: Declared, m: nat)
    requires m < |outputs|
    requires forall o :: 0 <= o < |outputs| ==> SizeOf(outputs, artifacts, o) == SizeOf(outputs, init, o) + if m == o then a.bytes else 0
    ensures WithinBounds(outputs, artifacts) <==>
              && WithinBounds(outputs, init)
              && (outputs[m].maxBytes > 0 ==> SizeOf(outputs, init, m) + a.bytes <= outputs[m].maxBytes)
  {
  }

  /** The last artifact counts for the output it matches, and for no other. */
  lemma {:induction false} SizesGrow(outputs: seq<Output>, artifacts: seq<Declared>)
    requires artifacts != []
    ensures var init, a := artifacts[..|artifacts| - 1], artifacts[|artifacts| - 1];
            forall o :: 0 <= o < |outputs| ==>
              SizeOf(outputs, artifacts, o) == SizeOf(outputs, init, o) + if Matched(outputs, a.path) == Some(o) then a.bytes else 0
  {
  }

  predicate RequiredPresent(r: Outcome) {
    r.completed ==> forall o :: 0 <= o < |r.outputs| && r.outputs[o].required ==> CountOf(r.outputs, r.artifacts, o) > 0
  }

  lemma {:induction false} CountMeans(outputs: seq<Output>, artifacts: seq<Declared>, o: nat)
    ensures CountOf(outputs, artifacts, o) > 0 <==> exists i :: 0 <= i < |artifacts| && Matched(outputs, artifacts[i].path) == Some(o)
  {
    if artifacts != [] {
      var init := artifacts[..|artifacts| - 1];
      CountMeans(outputs, init, o);
      if i :| 0 <= i < |artifacts| && Matched(outputs, artifacts[i].path) == Some(o) {
        assert i < |init| ==> init[i] == artifacts[i];
      }
      if i :| 0 <= i < |init| && Matched(outputs, init[i].path) == Some(o) {
        assert artifacts[i] == init[i];
      }
    }
  }

  /** A completed run has an artifact for every required output. */
  lemma {:induction false} RequiredMeans(r: Outcome)
    ensures RequiredPresent(r) <==> (r.completed ==> forall o :: 0 <= o < |r.outputs| && r.outputs[o].required ==>
              exists i :: 0 <= i < |r.artifacts| && Matched(r.outputs, r.artifacts[i].path) == Some(o))
  {
    forall o | 0 <= o < |r.outputs|
      ensures CountOf(r.outputs, r.artifacts, o) > 0 <==>
                exists i :: 0 <= i < |r.artifacts| && Matched(r.outputs, r.artifacts[i].path) == Some(o)
    {
      CountMeans(r.outputs, r.artifacts, o);
    }
  }

  function DeclaredPaths(artifacts: seq<Declared>): (r: seq<string>)
    ensures |r| == |artifacts| && forall i :: 0 <= i < |r| ==> r[i] == artifacts[i].path
  {
    seq(|artifacts|, i requires 0 <= i < |artifacts| => artifacts[i].path)
  }

  predicate CollisionFree(paths: seq<string>) {
    && (forall i :: 0 <= i < |paths| ==> SafeArtifactPath(paths[i]) && Printable(paths[i]))
    && Pairwise.Holds(Collisions.Disjoint, paths)
  }

  /** All that can be said of a manifest without a listing. */
  predicate Consistent(r: Outcome) {
    Declares(r.outputs, r.artifacts) && RequiredPresent(r) && CollisionFree(DeclaredPaths(r.artifacts))
  }

  // ---------------------------------------------------------------- what is wanted of a listing

  datatype Want = Want(path: string, role: Role, media: string, required: bool, exact: Option<(nat, string)>, max: Option<nat>)

  function OutputWant(a: Declared): Want {
    Want("outputs/" + a.path, OutputFile, a.media, true, Some((a.bytes, a.sha256)), None)
  }

  function ManifestWant(w: Work, raw: string): Want {
    Want(MANIFEST_PATH, ManifestFile, "application/json", true, Some((|raw|, w.digest(raw))), None)
  }

  const LOG_WANTS: seq<Want> := [
    Want("control/stdout.log", LogFile, "text/plain", false, None, Some(0x140_0000)),
    Want("control/stderr.log", LogFile, "text/plain", false, None, Some(0x140_0000)),
    Want("control/environment.json", ProvenanceFile, "application/json", false, None, Some(0x10_0000))]

  function OutputWants(artifacts: seq<Declared>): (r: seq<Want>)
    ensures |r| == |artifacts| && forall i :: 0 <= i < |r| ==> r[i] == OutputWant(artifacts[i])
  {
    seq(|artifacts|, i requires 0 <= i < |artifacts| => OutputWant(artifacts[i]))
  }

  /** The manifest, the declared outputs in order, then a fixed list of control files. */
  function Wants(w: Work, raw: string, r: Outcome): seq<Want> {
    [ManifestWant(w, raw)] + OutputWants(r.artifacts) + LOG_WANTS
  }

  datatype Pick = Pick(artifact: Artifact, role: Role, media: string)

  type Listing = map<string, Artifact>

  predicate Meets(want: Want, a: Artifact) {
    && (want.exact.Some? ==> a.bytes == want.exact.value.0 && a.sha256 == want.exact.value.1)
    && (want.max.Some? ==> a.bytes <= want.max.value)
  }

  function PickAll(listing: Listing, wants: seq<Want>): Option<seq<Pick>> {
    if wants == [] then Some([])
    else
      var want := wants[|wants| - 1];
      var before := PickAll(listing, wants[..|wants| - 1]);
      if before.None? then None
      else if want.path !in listing then (if want.required then None else before)
      else if !Meets(want, listing[want.path]) then None
      else Some(before.value + [Pick(listing[want.path], want.role, want.media)])
  }

  function TotalBytes(picks: seq<Pick>): nat {
    if picks == [] then 0 else TotalBytes(picks[..|picks| - 1]) + picks[|picks| - 1].artifact.bytes
  }

  predicate Fits(cfg: Config, picks: seq<Pick>) { TotalBytes(picks) <= cfg.maxBytes && |picks| <= cfg.maxFiles }

  function ByPath(catalog: seq<Artifact>): Listing {
    if catalog == [] then map[] else ByPath(catalog[..|catalog| - 1])[catalog[|catalog| - 1].path := catalog[|catalog| - 1]]
  }

  function ArtifactPaths(catalog: seq<Artifact>): (r: seq<string>)
    ensures |r| == |catalog| && forall i :: 0 <= i < |r| ==> r[i] == catalog[i].path
  {
    seq(|catalog|, i requires 0 <= i < |catalog| => catalog[i].path)
  }

  predicate ArtifactOk(w: Work, a: Artifact) {
    a.remote == w.remote && SafeArtifactPath(a.path) && w.validDigest(a.sha256)
  }

  predicate CatalogOk(w: Work, catalog: seq<Artifact>) {
    && (forall i :: 0 <= i < |catalog| ==> ArtifactOk(w, catalog[i]))
    && CollisionFree(ArtifactPaths(catalog))
  }

  function FileOf(w: Work, p: Pick): File {
    File(w.identify(p.artifact), p.artifact.path, p.role, p.media, w.workspace, p.artifact.bytes, p.artifact.sha256)
  }

  function FilesOf(w: Work, picks: seq<Pick>): (r: seq<File>)
    ensures |r| == |picks| && forall i :: 0 <= i < |r| ==> r[i] == FileOf(w, picks[i])
  {
    seq(|picks|, i requires 0 <= i < |picks| => FileOf(w, picks[i]))
  }

  function PathOf(f: File): string { f.path }

  function Assembled(w: Work, raw: string, picks: seq<Pick>): Snapshot {
    Snapshot(raw, Arranged(PathOf, FilesOf(w, picks)))
  }

  /** The snapshot a listing supports, if it supports one. */
  function Build(w: Work, raw: string, catalog: seq<Artifact>, cfg: Config): Option<Snapshot> {
    if !cfg.Valid() || |catalog| > cfg.maxFiles || w.parse(raw).None? || !CatalogOk(w, catalog) then None else
    var r := w.parse(raw).value;
    if !Consistent(r) then None else
    var picks := PickAll(ByPath(catalog), Wants(w, raw, r));
    if picks.None? || !Fits(cfg, picks.value) then None else
    var s := Assembled(w, raw, picks.value);
    if w.encodedBytes(s) > MAX_SNAPSHOT then None else Some(s)
  }

  function ArtifactOf(w: Work, f: File): Artifact { Artifact(w.remote, f.path, f.bytes, f.sha256) }

  function CatalogOf(w: Work, files: seq<File>): (r: seq<Artifact>)
    ensures |r| == |files| && forall i :: 0 <= i < |r| ==> r[i] == ArtifactOf(w, files[i])
  {
    seq(|files|, i requires 0 <= i < |files| => ArtifactOf(w, files[i]))
  }

  /** A claimed work names a proper workspace, and identities are derived as proper object names. */
  ghost predicate Proper(w: Work) { w.validWorkspace(w.workspace) && forall a :: w.validName(w.identify(a)) }

  /** The stored object behind a file is described as an object can be. */
  predicate ObjectOk(w: Work, f: File) { w.validName(f.id) && w.validWorkspace(f.workspace) && w.validDigest(f.sha256) }

  /** A stored snapshot is believed when its own files build it again. */
  predicate Believed(w: Work, s: Snapshot) {
    && 1 <= |s.files| <= MAX_FILES && |s.manifest| <= MAX_MANIFEST && w.encodedBytes(s) <= MAX_SNAPSHOT
    && (forall i :: 0 <= i < |s.files| ==> ObjectOk(w, s.files[i]) && s.files[i].workspace == w.workspace)
    && Build(w, s.manifest, CatalogOf(w, s.files), DEFAULT) == Some(s)
  }

  // ---------------------------------------------------------------- building is a fixpoint

  predicate Keyed(listing: Listing) { forall k :: k in listing ==> listing[k].path == k }

  function WantPaths(wants: seq<Want>): (r: seq<string>)
    ensures |r| == |wants| && forall i :: 0 <= i < |r| ==> r[i] == wants[i].path
  {
    seq(|wants|, i requires 0 <= i < |wants| => wants[i].path)
  }

  function PickPaths(picks: seq<Pick>): (r: seq<string>)
    ensures |r| == |picks| && forall i :: 0 <= i < |r| ==> r[i] == picks[i].artifact.path
  {
    seq(|picks|, i requires 0 <= i < |picks| => picks[i].artifact.path)
  }

  /** Every pick is a wanted entry of the listing, and every wanted entry that exists is picked. */
  ghost predicate Faithful(listing: Listing, wants: seq<Want>, picks: seq<Pick>) {
    && (forall i :: 0 <= i < |picks| ==>
          && picks[i].artifact.path in listing && listing[picks[i].artifact.path] == picks[i].artifact
          && picks[i].artifact.path in WantPaths(wants))
    && (forall i :: 0 <= i < |wants| && wants[i].path in listing ==> wants[i].path in PickPaths(picks))
  }

  lemma {:induction false} FaithfulNext(listing: Listing, wants: seq<Want>, picks: seq<Pick>, want: Want, more: seq<Pick>)
    requires Keyed(listing) && Faithful(listing, wants, picks)
    requires if want.path in listing then |more| == 1 && more[0].artifact == listing[want.path] else more == []
    ensures Faithful(listing, wants + [want], picks + more)
  {
    var ws, ps := wants + [want], picks + more;
    assert forall i :: 0 <= i < |wants| ==> WantPaths(ws)[i] == WantPaths(wants)[i];
    assert WantPaths(ws)[|wants|] == want.path;
    assert forall p :: p in WantPaths(wants) ==> p in WantPaths(ws);
    assert forall i :: 0 <= i < |picks| ==> PickPaths(ps)[i] == PickPaths(picks)[i];
    assert forall p :: p in PickPaths(picks) ==> p in PickPaths(ps);
    if want.path in listing { assert PickPaths(ps)[|picks|] == want.path; }
  }

  lemma {:induction false} PicksAreFaithful(listing: Listing, wants: seq<Want>)
    requires Keyed(listing) && PickAll(listing, wants).Some?
    ensures Faithful(listing, wants, PickAll(listing, wants).value)
  {
    if wants != [] {
      var init, want := wants[..|wants| - 1], wants[|wants| - 1];
      PicksAreFaithful(listing, init);
      assert wants == init + [want];
      var before, all := PickAll(listing, init).value, PickAll(listing, wants).value;
      var more := if want.path in listing then [Pick(listing[want.path], want.role, want.media)] else [];
      FaithfulNext(listing, init, before, want, more);
      assert all == before + more;
    }
  }

  lemma {:induction false} PicksAreDistinct(listing: Listing, wants: seq<Want>)
    requires Keyed(listing) && PickAll(listing, wants).Some? && Pairwise.Distinct(WantPaths(wants))
    ensures Pairwise.Distinct(PickPaths(PickAll(listing, wants).value))
  {
    if wants != [] {
      var init, want := wants[..|wants| - 1], wants[|wants| - 1];
      assert WantPaths(wants)[..|wants| - 1] == WantPaths(init);
      assert WantPaths(wants)[|wants| - 1] == want.path;
      PicksAreDistinct(listing, init);
      PicksAreFaithful(listing, init);
      assert want.path !in WantPaths(init);
    }
  }

  /** The selection looks at nothing but the wanted paths. */
  lemma {:induction false} PicksAgree(a: Listing, b: Listing, wants: seq<Want>)
    requires forall i :: 0 <= i < |wants| ==>
               (wants[i].path in a <==> wants[i].path in b) && (wants[i].path in a ==> a[wants[i].path] == b[wants[i].path])
    ensures PickAll(a, wants) == PickAll(b, wants)
  {
    if wants != [] { PicksAgree(a, b, wants[..|wants| - 1]); }
  }

  lemma {:induction false} ByPathIsKeyed(catalog: seq<Artifact>)
    ensures Keyed(ByPath(catalog))
    ensures forall k :: k in ByPath(catalog) <==> k in ArtifactPaths(catalog)
    ensures forall k :: k in ByPath(catalog) ==> ByPath(catalog)[k] in catalog
  {
    if catalog != [] {
      var init, last := catalog[..|catalog| - 1], catalog[|catalog| - 1];
      ByPathIsKeyed(init);
      assert catalog == init + [last];
      assert ArtifactPaths(catalog) == ArtifactPaths(init) + [last.path];
    }
  }

  lemma {:induction false} ByPathFinds(catalog: seq<Artifact>, a: Artifact)
    requires a in catalog && Pairwise.Distinct(ArtifactPaths(catalog))
    ensures a.path in ByPath(catalog) && ByPath(catalog)[a.path] == a
  {
    ByPathIsKeyed(catalog);
    var i :| 0 <= i < |catalog| && catalog[i] == a;
    assert ArtifactPaths(catalog)[i] == a.path;
    var b := ByPath(catalog)[a.path];
    var j :| 0 <= j < |catalog| && catalog[j] == b;
    assert ArtifactPaths(catalog)[j] == a.path;
  }

  predicate ControlPath(p: string) { "control/" <= p }

  lemma {:induction false} OutputWantsDistinct(artifacts: seq<Declared>)
    requires CollisionFree(DeclaredPaths(artifacts))
    ensures Pairwise.Distinct(WantPaths(OutputWants(artifacts)))
    ensures forall i :: 0 <= i < |artifacts| ==> !ControlPath(WantPaths(OutputWants(artifacts))[i])
  {
    var paths, wanted := DeclaredPaths(artifacts), WantPaths(OutputWants(artifacts));
    forall i, j | 0 <= i < j < |wanted| ensures wanted[i] != wanted[j] {
      assert Collisions.Disjoint(paths[i], paths[j]);
      assert wanted[i][8..] == paths[i] && wanted[j][8..] == paths[j];
    }
    forall i | 0 <= i < |artifacts| ensures !ControlPath(wanted[i]) {
      assert wanted[i][0] == 'o' && "control/"[0] == 'c';
    }
  }

  lemma {:induction false} ControlWantsDistinct(w: Work, raw: string)
    ensures Pairwise.Distinct(WantPaths([ManifestWant(w, raw)] + LOG_WANTS))
    ensures forall i :: 0 <= i < |WantPaths([ManifestWant(w, raw)] + LOG_WANTS)| ==>
              ControlPath(WantPaths([ManifestWant(w, raw)] + LOG_WANTS)[i])
  {
    var a, b, c, d := MANIFEST_PATH, LOG_WANTS[0].path, LOG_WANTS[1].path, LOG_WANTS[2].path;
    assert WantPaths([ManifestWant(w, raw)] + LOG_WANTS) == [a, b, c, d];
    assert a[8] == 'e' && b[8] == 's' && c[8] == 's' && d[8] == 'e';
    assert a[9] == 'x' && b[11] == 'o' && c[11] == 'e' && d[9] == 'n';
  }

  lemma {:induction false} Interleaved(control: seq<string>, outs: seq<string>)
    requires |control| >= 1 && Pairwise.Distinct(control) && Pairwise.Distinct(outs)
    requires forall i, j :: 0 <= i < |control| && 0 <= j < |outs| ==> control[i] != outs[j]
    ensures Pairwise.Distinct([control[0]] + outs + control[1..])
  {
  }

  lemma {:induction false} WantsDistinct(w: Work, raw: string, r: Outcome)
    requires Consistent(r)
    ensures Pairwise.Distinct(WantPaths(Wants(w, raw, r)))
  {
    OutputWantsDistinct(r.artifacts);
    ControlWantsDistinct(w, raw);
    BetweenDistinct(ManifestWant(w, raw), OutputWants(r.artifacts), LOG_WANTS);
  }

  lemma {:induction false} BetweenDistinct(first: Want, outs: seq<Want>, logs: seq<Want>)
    requires Pairwise.Distinct(WantPaths([first] + logs)) && Pairwise.Distinct(WantPaths(outs))
    requires forall i :: 0 <= i < |[first] + logs| ==> ControlPath(WantPaths([first] + logs)[i])
    requires forall i :: 0 <= i < |outs| ==> !ControlPath(WantPaths(outs)[i])
    ensures Pairwise.Distinct(WantPaths([first] + outs + logs))
  {
    WantPathsAround(first, outs, logs);
    Interleaved(WantPaths([first] + logs), WantPaths(outs));
  }

  lemma {:induction false} WantPathsAround(first: Want, outs: seq<Want>, logs: seq<Want>)
    ensures var control := WantPaths([first] + logs);
            WantPaths([first] + outs + logs) == [control[0]] + WantPaths(outs) + control[1..]
  {
    PathsConcat([first], logs);
    PathsConcat([first], outs);
    PathsConcat([first] + outs, logs);
    assert WantPaths([first] + logs)[1..] == WantPaths(logs);
  }

  lemma {:induction false} PathsConcat(a: seq<Want>, b: seq<Want>)
    ensures WantPaths(a + b) == WantPaths(a) + WantPaths(b)
  {
  }

  predicate DifferentPath(a: File, b: File) { a.path != b.path }

  function Artifacts(picks: seq<Pick>): (r: seq<Artifact>)
    ensures |r| == |picks| && forall i :: 0 <= i < |r| ==> r[i] == picks[i].artifact
  {
    seq(|picks|, i requires 0 <= i < |picks| => picks[i].artifact)
  }

  lemma {:induction false} SortedPathsDiffer(w: Work, picks: seq<Pick>, files: seq<File>)
    requires Pairwise.Distinct(PickPaths(picks)) && multiset(files) == multiset(FilesOf(w, picks))
    ensures Pairwise.Distinct(ArtifactPaths(CatalogOf(w, files)))
  {
    var unsorted := FilesOf(w, picks);
    assert Pairwise.Symmetric(DifferentPath);
    assert Pairwise.Holds(DifferentPath, unsorted) by {
      assert forall i :: 0 <= i < |picks| ==> unsorted[i].path == PickPaths(picks)[i];
    }
    Pairwise.Permuted(DifferentPath, unsorted, files);
  }

  /** The files of a built snapshot, read as a listing, are what was picked. */
  lemma {:induction false} OwnCatalog(w: Work, picks: seq<Pick>, files: seq<File>)
    requires multiset(files) == multiset(FilesOf(w, picks))
    requires forall i :: 0 <= i < |picks| ==> picks[i].artifact.remote == w.remote
    ensures |files| == |picks|
    ensures forall i :: 0 <= i < |files| ==> CatalogOf(w, files)[i] in Artifacts(picks)
    ensures forall j :: 0 <= j < |picks| ==> Artifacts(picks)[j] in CatalogOf(w, files)
    ensures forall i :: 0 <= i < |files| ==> files[i].workspace == w.workspace
  {
    var unsorted, own, arts := FilesOf(w, picks), CatalogOf(w, files), Artifacts(picks);
    assert |files| == |multiset(files)| && |unsorted| == |multiset(unsorted)|;
    forall i | 0 <= i < |files| ensures own[i] in arts && files[i].workspace == w.workspace {
      assert files[i] in multiset(unsorted);
      var j :| 0 <= j < |unsorted| && unsorted[j] == files[i];
      assert own[i] == arts[j];
    }
    forall j | 0 <= j < |picks| ensures arts[j] in own {
      assert unsorted[j] in multiset(files);
      var i :| 0 <= i < |files| && files[i] == unsorted[j];
      assert own[i] == arts[j];
    }
  }

  lemma {:induction false} PartIsApart(paths: seq<string>, part: seq<string>)
    requires CollisionFree(paths) && Pairwise.Distinct(part) && forall i :: 0 <= i < |part| ==> part[i] in paths
    ensures CollisionFree(part)
  {
    assert Pairwise.Symmetric(Collisions.Disjoint);
    Pairwise.AsBag(Collisions.Disjoint, paths);
    forall i, j | 0 <= i < j < |part| ensures Collisions.Disjoint(part[i], part[j]) {
      assert part[i] in multiset(paths) && part[j] in multiset(paths);
    }
  }

  lemma {:induction false} OwnIsOk(w: Work, catalog: seq<Artifact>, own: seq<Artifact>)
    requires CatalogOk(w, catalog) && Pairwise.Distinct(ArtifactPaths(own))
    requires forall i :: 0 <= i < |own| ==> own[i] in catalog
    ensures CatalogOk(w, own)
  {
    forall i | 0 <= i < |own| ensures ArtifactOk(w, own[i]) && ArtifactPaths(own)[i] in ArtifactPaths(catalog) {
      var j :| 0 <= j < |catalog| && catalog[j] == own[i];
      assert ArtifactPaths(catalog)[j] == own[i].path;
    }
    PartIsApart(ArtifactPaths(catalog), ArtifactPaths(own));
  }

  lemma {:induction false} OwnAgrees(listing: Listing, wants: seq<Want>, picks: seq<Pick>, own: seq<Artifact>, p: string)
    requires Faithful(listing, wants, picks) && Pairwise.Distinct(ArtifactPaths(own)) && p in WantPaths(wants)
    requires forall i :: 0 <= i < |own| ==> own[i] in Artifacts(picks)
    requires forall j :: 0 <= j < |picks| ==> Artifacts(picks)[j] in own
    ensures p in listing <==> p in ByPath(own)
    ensures p in listing ==> listing[p] == ByPath(own)[p]
  {
    ByPathIsKeyed(own);
    var i :| 0 <= i < |wants| && WantPaths(wants)[i] == p;
    if p in listing {
      var j :| 0 <= j < |picks| && PickPaths(picks)[j] == p;
      assert Artifacts(picks)[j] in own;
      ByPathFinds(own, picks[j].artifact);
    }
    if p in ByPath(own) {
      var k :| 0 <= k < |own| && own[k] == ByPath(own)[p];
      var j :| 0 <= j < |picks| && Artifacts(picks)[j] == own[k];
      assert picks[j].artifact.path in listing;
    }
  }

  /** What one listing says of the picks: all are its own, valid and of distinct paths. */
  lemma {:induction false} PicksAreListed(w: Work, raw: string, r: Outcome, catalog: seq<Artifact>)
    requires CatalogOk(w, catalog) && Consistent(r) && PickAll(ByPath(catalog), Wants(w, raw, r)).Some?
    ensures var picks := PickAll(ByPath(catalog), Wants(w, raw, r)).value;
            && Faithful(ByPath(catalog), Wants(w, raw, r), picks) && Pairwise.Distinct(PickPaths(picks)) && picks != []
            && forall i :: 0 <= i < |picks| ==> picks[i].artifact in catalog && picks[i].artifact.remote == w.remote
  {
    var listing, wants := ByPath(catalog), Wants(w, raw, r);
    ByPathIsKeyed(catalog);
    WantsDistinct(w, raw, r);
    PicksAreFaithful(listing, wants);
    PicksAreDistinct(listing, wants);
    RequiredArePicked(listing, wants, 0);
    var picks := PickAll(listing, wants).value;
    forall i | 0 <= i < |picks| ensures picks[i].artifact in catalog && picks[i].artifact.remote == w.remote {
      var j :| 0 <= j < |catalog| && catalog[j] == picks[i].artifact;
    }
  }

  lemma {:induction false} RequiredArePicked(listing: Listing, wants: seq<Want>, i: nat)
    requires i < |wants| && wants[i].required && PickAll(listing, wants).Some?
    ensures PickAll(listing, wants).value != []
  {
    if i < |wants| - 1 { RequiredArePicked(listing, wants[..|wants| - 1], i); }
  }

  /** Rebuilding from only its own files selects the same files again. */
  lemma {:induction false} SamePicks(w: Work, catalog: seq<Artifact>, wants: seq<Want>, picks: seq<Pick>, files: seq<File>)
    requires CatalogOk(w, catalog) && PickAll(ByPath(catalog), wants) == Some(picks)
    requires Faithful(ByPath(catalog), wants, picks) && Pairwise.Distinct(PickPaths(picks))
    requires forall i :: 0 <= i < |picks| ==> picks[i].artifact in catalog && picks[i].artifact.remote == w.remote
    requires multiset(files) == multiset(FilesOf(w, picks))
    ensures PickAll(ByPath(CatalogOf(w, files)), wants) == Some(picks)
    ensures CatalogOk(w, CatalogOf(w, files)) && |files| == |picks|
    ensures forall i :: 0 <= i < |files| ==> files[i].workspace == w.workspace
  {
    var listing, own := ByPath(catalog), CatalogOf(w, files);
    OwnCatalog(w, picks, files);
    SortedPathsDiffer(w, picks, files);
    forall i | 0 <= i < |own| ensures own[i] in catalog {
      var j :| 0 <= j < |picks| && Artifacts(picks)[j] == own[i];
    }
    OwnIsOk(w, catalog, own);
    forall i | 0 <= i < |wants|
      ensures wants[i].path in listing <==> wants[i].path in ByPath(own)
      ensures wants[i].path in listing ==> listing[wants[i].path] == ByPath(own)[wants[i].path]
    {
      assert WantPaths(wants)[i] == wants[i].path;
      OwnAgrees(listing, wants, picks, own, wants[i].path);
    }
    PicksAgree(listing, ByPath(own), wants);
  }

  /** Whatever listing a snapshot came from, validating it later accepts it: rebuilding from its own
      files under the widest limits gives the same sorted files and identities. */
  lemma {:induction false} BuiltIsBelieved(w: Work, raw: string, catalog: seq<Artifact>, cfg: Config)
    requires Proper(w) && |raw| <= MAX_MANIFEST && Build(w, raw, catalog, cfg).Some?
    ensures Believed(w, Build(w, raw, catalog, cfg).value)
  {
    var picks := BuiltFrom(w, raw, catalog, cfg);
    var r, s := w.parse(raw).value, Assembled(w, raw, picks);
    PicksAreListed(w, raw, r, catalog);
    SamePicks(w, catalog, Wants(w, raw, r), picks, s.files);
    FilesAreProper(w, catalog, picks, s.files);
    BuildsTo(w, raw, CatalogOf(w, s.files), DEFAULT, picks);
  }

  lemma {:induction false} FilesAreProper(w: Work, catalog: seq<Artifact>, picks: seq<Pick>, files: seq<File>)
    requires Proper(w) && CatalogOk(w, catalog) && multiset(files) == multiset(FilesOf(w, picks))
    requires forall i :: 0 <= i < |picks| ==> picks[i].artifact in catalog
    ensures forall i :: 0 <= i < |files| ==> ObjectOk(w, files[i])
  {
    forall i | 0 <= i < |files| ensures ObjectOk(w, files[i]) {
      assert files[i] in multiset(FilesOf(w, picks));
      var j :| 0 <= j < |picks| && FilesOf(w, picks)[j] == files[i];
      var k :| 0 <= k < |catalog| && catalog[k] == picks[j].artifact;
      assert ArtifactOk(w, catalog[k]);
    }
  }

  /** Everything a build of these picks rests on. */
  predicate Buildable(w: Work, raw: string, catalog: seq<Artifact>, cfg: Config, picks: seq<Pick>) {
    && cfg.Valid() && |catalog| <= cfg.maxFiles && w.parse(raw).Some? && CatalogOk(w, catalog) && Consistent(w.parse(raw).value)
    && PickAll(ByPath(catalog), Wants(w, raw, w.parse(raw).value)) == Some(picks)
    && Fits(cfg, picks) && w.encodedBytes(Assembled(w, raw, picks)) <= MAX_SNAPSHOT
  }

  lemma {:induction false} BuiltFrom(w: Work, raw: string, catalog: seq<Artifact>, cfg: Config) returns (picks: seq<Pick>)
    requires Build(w, raw, catalog, cfg).Some?
    ensures Buildable(w, raw, catalog, cfg, picks) && Build(w, raw, catalog, cfg).value == Assembled(w, raw, picks)
  {
    picks := PickAll(ByPath(catalog), Wants(w, raw, w.parse(raw).value)).value;
  }

  lemma {:induction false} BuildsTo(w: Work, raw: string, catalog: seq<Artifact>, cfg: Config, picks: seq<Pick>)
    requires Buildable(w, raw, catalog, cfg, picks)
    ensures Build(w, raw, catalog, cfg) == Some(Assembled(w, raw, picks))
  {
  }

  // ---------------------------------------------------------------- the code

  lemma {:induction false} ListedNext(catalog: seq<Artifact>, i: nat)
    requires i < |catalog|
    ensures ByPath(catalog[..i + 1]) == ByPath(catalog[..i])[catalog[i].path := catalog[i]]
    ensures ArtifactPaths(catalog[..i + 1]) == ArtifactPaths(catalog[..i]) + [catalog[i].path]
  {
    assert catalog[..i + 1][..i] == catalog[..i];
  }

  method CheckCatalog(w: Work, catalog: seq<Artifact>) returns (ok: bool, listing: Listing)
    ensures ok <==> CatalogOk(w, catalog)
    ensures ok ==> listing == ByPath(catalog)
  {
    listing := map[];
    var paths: seq<string> := [];
    for i := 0 to |catalog|
      invariant listing == ByPath(catalog[..i]) && paths == ArtifactPaths(catalog[..i])
      invariant forall k :: 0 <= k < i ==> ArtifactOk(w, catalog[k])
    {
      var a := catalog[i];
      if a.remote != w.remote || !SafeArtifactPath(a.path) || !w.validDigest(a.sha256) { return false, listing; }
      ListedNext(catalog, i);
      paths := paths + [a.path];
      listing := listing[a.path := a];
    }
    assert catalog[..|catalog|] == catalog;
    ok := Collisions.CollisionFree(paths);
  }

  method FindOutput(outputs: seq<Output>, path: string) returns (found: Option<nat>)
    ensures found == Matched(outputs, path)
  {
    for i := 0 to |outputs|
      invariant forall k :: 0 <= k < i ==> !Covers(outputs[k], path)
    {
      if Covers(outputs[i], path) { return Some(i); }
    }
    return None;
  }

  predicate Selects(cfg: Config, listing: Listing, wants: seq<Want>) {
    PickAll(listing, wants).Some? && Fits(cfg, PickAll(listing, wants).value)
  }

  lemma {:induction false} PickNext(listing: Listing, done: seq<Want>, want: Want)
    requires PickAll(listing, done).Some?
    ensures PickAll(listing, done + [want]) ==
              if want.path !in listing then (if want.required then None else PickAll(listing, done))
              else if !Meets(want, listing[want.path]) then None
              else Some(PickAll(listing, done).value + [Pick(listing[want.path], want.role, want.media)])
  {
    assert (done + [want])[..|done|] == done;
  }

  lemma {:induction false} TotalNext(picks: seq<Pick>, p: Pick)
    ensures TotalBytes(picks + [p]) == TotalBytes(picks) + p.artifact.bytes
  {
    assert (picks + [p])[..|picks|] == picks;
  }

  /** What fails early fails altogether. */
  lemma {:induction false} SelectsPart(cfg: Config, listing: Listing, part: seq<Want>, rest: seq<Want>)
    ensures Selects(cfg, listing, part + rest) ==> Selects(cfg, listing, part)
    decreases |rest|
  {
    if rest == [] {
      assert part + rest == part;
    } else {
      var init, want := part + rest[..|rest| - 1], rest[|rest| - 1];
      assert part + rest == init + [want];
      assert (init + [want])[..|init|] == init;
      if Selects(cfg, listing, init + [want]) {
        PickNext(listing, init, want);
        if want.path in listing { TotalNext(PickAll(listing, init).value, Pick(listing[want.path], want.role, want.media)); }
      }
      SelectsPart(cfg, listing, part, rest[..|rest| - 1]);
    }
  }

  /** Picks so far, always what the wants taken so far select, and within the limits. */
  class Collector {
    const cfg: Config
    const listing: Listing
    var picks: seq<Pick>
    var total: nat

    constructor (cfg: Config, listing: Listing)
      requires cfg.Valid()
      ensures this.cfg == cfg && this.listing == listing && Has([])
    {
      this.cfg, this.listing := cfg, listing;
      picks, total := [], 0;
    }

    ghost predicate Has(wants: seq<Want>) reads this {
      PickAll(listing, wants) == Some(picks) && total == TotalBytes(picks) && Fits(cfg, picks)
    }

    method Take(want: Want, ghost done: seq<Want>) returns (ok: bool)
      requires Has(done)
      modifies this
      ensures ok <==> Selects(cfg, listing, done + [want])
      ensures ok ==> Has(done + [want])
    {
      PickNext(listing, done, want);
      if want.path !in listing { return !want.required; }
      var a := listing[want.path];
      if !Meets(want, a) { return false; }
      var p := Pick(a, want.role, want.media);
      TotalNext(picks, p);
      if a.bytes > cfg.maxBytes - total { return false; }
      if |picks| >= cfg.maxFiles { return false; }
      picks, total := picks + [p], total + a.bytes;
      return true;
    }

    method TakeEach(wants: seq<Want>) returns (ok: bool)
      requires Has([])
      modifies this
      ensures ok <==> Selects(cfg, listing, wants)
      ensures ok ==> Has(wants)
    {
      ghost var taken := [];
      for i := 0 to |wants|
        invariant Has(taken) && taken == wants[..i]
      {
        ghost var next := taken + [wants[i]];
        assert next + wants[i + 1..] == wants && next == wants[..i + 1];
        SelectsPart(cfg, listing, next, wants[i + 1..]);
        ok := Take(wants[i], taken);
        if !ok { return; }
        taken := next;
      }
      assert taken == wants;
      return true;
    }
  }

  /** What each declared output has received so far. */
  predicate Tallied(outputs: seq<Output>, artifacts: seq<Declared>, sizes: seq<nat>, counts: seq<nat>) {
    && |sizes| == |counts| == |outputs|
    && forall o :: 0 <= o < |outputs| ==>
         sizes[o] == SizeOf(outputs, artifacts, o) && counts[o] == CountOf(outputs, artifacts, o)
  }

  lemma {:induction false} TalliedNext(outputs: seq<Output>, artifacts: seq<Declared>, a: Declared, m: nat, sizes: seq<nat>, counts: seq<nat>)
    requires Tallied(outputs, artifacts, sizes, counts) && Matched(outputs, a.path) == Some(m)
    ensures Tallied(outputs, artifacts + [a], sizes[m := sizes[m] + a.bytes], counts[m := counts[m] + 1])
  {
    assert (artifacts + [a])[..|artifacts|] == artifacts;
  }

  lemma {:induction false} DeclaresNext(outputs: seq<Output>, artifacts: seq<Declared>, a: Declared, sizes: seq<nat>, counts: seq<nat>)
    requires Declares(outputs, artifacts) && Tallied(outputs, artifacts, sizes, counts)
    ensures Declares(outputs, artifacts + [a]) <==> Allowed(outputs, a, sizes)
  {
    assert (artifacts + [a])[..|artifacts|] == artifacts;
  }

  lemma {:induction false} DeclaresPart(outputs: seq<Output>, part: seq<Declared>, rest: seq<Declared>)
    ensures Declares(outputs, part + rest) ==> Declares(outputs, part)
    decreases |rest|
  {
    if rest == [] {
      assert part + rest == part;
    } else {
      assert (part + rest)[..|part + rest| - 1] == part + rest[..|rest| - 1];
      DeclaresPart(outputs, part, rest[..|rest| - 1]);
    }
  }

  /** The artifact belongs to a declared output and still fits it. */
  predicate Allowed(outputs: seq<Output>, a: Declared, sizes: seq<nat>)
    requires |sizes| == |outputs|
  {
    var m := Matched(outputs, a.path);
    m.Some? && (outputs[m.value].maxBytes > 0 ==> sizes[m.value] + a.bytes <= outputs[m.value].maxBytes)
  }

  /** Match every declared artifact to its output, keeping each output's size and count. */
  method TallyOutputs(outputs: seq<Output>, artifacts: seq<Declared>) returns (ok: bool, sizes: seq<nat>, counts: seq<nat>)
    ensures ok <==> Declares(outputs, artifacts)
    ensures ok ==> Tallied(outputs, artifacts, sizes, counts)
  {
    sizes := seq(|outputs|, _ => 0);
    counts := sizes;
    ghost var seen := [];
    for i := 0 to |artifacts|
      invariant seen == artifacts[..i]
      invariant Declares(outputs, seen) && Tallied(outputs, seen, sizes, counts)
    {
      var a := artifacts[i];
      ghost var next := seen + [a];
      assert next + artifacts[i + 1..] == artifacts && next == artifacts[..i + 1];
      DeclaresPart(outputs, next, artifacts[i + 1..]);
      DeclaresNext(outputs, seen, a, sizes, counts);
      var matched := FindOutput(outputs, a.path);
      if matched.None? { return false, sizes, counts; }
      var m := matched.value;
      if outputs[m].maxBytes > 0 && a.bytes > outputs[m].maxBytes - sizes[m] { return false, sizes, counts; }
      TalliedNext(outputs, seen, a, m, sizes, counts);
      sizes, counts := sizes[m := sizes[m] + a.bytes], counts[m := counts[m] + 1];
      seen := next;
    }
    assert seen == artifacts;
    ok := true;
  }

  method CheckManifest(r: Outcome) returns (ok: bool)
    ensures ok <==> Consistent(r)
  {
    var sizes, counts;
    ok, sizes, counts := TallyOutputs(r.outputs, r.artifacts);
    if !ok { return; }
    ok := Collisions.CollisionFree(DeclaredPaths(r.artifacts));
    if ok { ok := CheckRequired(r, sizes, counts); }
  }

  method CheckRequired(r: Outcome, ghost sizes: seq<nat>, counts: seq<nat>) returns (ok: bool)
    requires Tallied(r.outputs, r.artifacts, sizes, counts)
    ensures ok <==> RequiredPresent(r)
  {
    if !r.completed { return true; }
    for o := 0 to |r.outputs|
      invariant forall k :: 0 <= k < o && r.outputs[k].required ==> counts[k] > 0
    {
      if r.outputs[o].required && counts[o] == 0 { return false; }
    }
    return true;
  }

  method Gather(w: Work, raw: string, r: Outcome, cfg: Config, listing: Listing) returns (picks: Option<seq<Pick>>)
    requires cfg.Valid()
    ensures picks.Some? <==> Consistent(r) && Selects(cfg, listing, Wants(w, raw, r))
    ensures picks.Some? ==> picks == PickAll(listing, Wants(w, raw, r))
  {
    var ok := CheckManifest(r);
    if !ok { return None; }
    var c := new Collector(cfg, listing);
    ok := c.TakeEach(Wants(w, raw, r));
    if !ok { return None; }
    return Some(c.picks);
  }

  method BuildSnapshot(w: Work, raw: string, catalog: seq<Artifact>, cfg: Config) returns (s: Option<Snapshot>)
    ensures s == Build(w, raw, catalog, cfg)
  {
    if !cfg.Valid() || |catalog| > cfg.maxFiles { return None; }
    var r := w.parse(raw);
    if r.None? { return None; }
    var ok, listing := CheckCatalog(w, catalog);
    if !ok { return None; }
    var picks := Gather(w, raw, r.value, cfg, listing);
    if picks.None? { return None; }
    var files := Sort(PathOf, FilesOf(w, picks.value));
    var built := Snapshot(raw, files);
    return if w.encodedBytes(built) > MAX_SNAPSHOT then None else Some(built);
  }

  method ValidateSnapshot(w: Work, s: Snapshot) returns (ok: bool)
    ensures ok <==> Believed(w, s)
  {
    if s.files == [] || |s.files| > MAX_FILES || |s.manifest| > MAX_MANIFEST || w.encodedBytes(s) > MAX_SNAPSHOT { return false; }
    var catalog: seq<Artifact> := [];
    for i := 0 to |s.files|
      invariant catalog == CatalogOf(w, s.files[..i])
      invariant forall k :: 0 <= k < i ==> ObjectOk(w, s.files[k]) && s.files[k].workspace == w.workspace
    {
      if !ObjectOk(w, s.files[i]) || s.files[i].workspace != w.workspace { return false; }
      assert s.files[..i + 1] == s.files[..i] + [s.files[i]];
      catalog := catalog + [ArtifactOf(w, s.files[i])];
    }
    assert s.files[..|s.files|] == s.files;
    var rebuilt := BuildSnapshot(w, s.manifest, catalog, DEFAULT);
    return rebuilt == Some(s);
  }
}
