/** Selecting the files of a bundle: a pruned walk over the included subtrees. */
module Packaging {
  import opened Optional
  import opened Names
  import opened Ignore
  import opened PathSets
  import opened Sorting
  import Sums

  type Bytes = seq<bv8>

  datatype Limits = Limits(
    maxCompressed: nat,
    maxExpanded: nat,
    maxManifest: nat,
    maxFiles: nat,
    maxEntries: nat,
    maxDepth: nat)

  datatype File = File(path: string, bytes: nat, sha256: string, executable: bool)
  datatype Manifest = Manifest(version: string, files: seq<File>)
  datatype Member = Member(file: File, content: Bytes)

  datatype Header = Header(name: string, size: nat, executable: bool)

  /** The encodings a bundle rests on: JSON, tar header blocks, gzip and SHA-256 in hex. */
  datatype Wire = Wire(
    encode: Manifest -> Bytes,
    decode: Bytes -> Option<Manifest>,
    encodable: Header -> bool,
    block: Header -> Bytes,
    parse: Bytes -> Option<Header>,
    deflate: Bytes -> Bytes,
    inflate: Bytes -> Option<Bytes>,
    digest: Bytes -> string)

  function HeaderOf(f: File): Header { Header("code/" + f.path, f.bytes, f.executable) }

  function Depth(path: string): nat { |Split(path)| }

  // ---------------------------------------------------------------- the source tree

  datatype Tree = Leaf(content: Bytes, executable: bool) | Dir(children: Forest)
  datatype Forest = Empty | Child(name: string, tree: Tree, rest: Forest)

  /** A directory entry is one component. */
  predicate Plain(t: Tree) { t.Leaf? || PlainForest(t.children) }
  predicate PlainForest(f: Forest) { f.Child? ==> '/' !in f.name && Plain(f.tree) && PlainForest(f.rest) }

  function Carried(w: Wire, name: string, content: Bytes, executable: bool): Member {
    Member(File(name, |content|, w.digest(content), executable), content)
  }

  /** Every file below `name`, nothing pruned, as a bundle would carry it. */
  function AllFiles(w: Wire, name: string, t: Tree): seq<Member>
    decreases t
  {
    match t
    case Leaf(content, executable) => [Carried(w, name, content, executable)]
    case Dir(children) => AllBelow(w, name, children)
  }

  function AllBelow(w: Wire, dir: string, f: Forest): seq<Member>
    decreases f
  {
    match f
    case Empty => []
    case Child(name, tree, rest) => AllFiles(w, dir + "/" + name, tree) + AllBelow(w, dir, rest)
  }

  /** A file with this content and mode lies at this path of the tree called `name`. */
  predicate Lies(name: string, t: Tree, path: string, content: Bytes, executable: bool)
    decreases t
  {
    match t
    case Leaf(c, x) => path == name && c == content && x == executable
    case Dir(children) => LiesBelow(name, children, path, content, executable)
  }

  predicate LiesBelow(dir: string, f: Forest, path: string, content: Bytes, executable: bool)
    decreases f
  {
    f.Child? && (Lies(dir + "/" + f.name, f.tree, path, content, executable) || LiesBelow(dir, f.rest, path, content, executable))
  }

  predicate Describes(w: Wire, m: Member) { m.file.bytes == |m.content| && m.file.sha256 == w.digest(m.content) }

  /** What is carried is exactly what lies in the tree: path, content and mode, with its true size and digest. */
  lemma {:induction false} AllFilesMean(w: Wire, name: string, t: Tree, m: Member)
    ensures m in AllFiles(w, name, t) <==> Lies(name, t, m.file.path, m.content, m.file.executable) && Describes(w, m)
    decreases t
  {
    if t.Dir? { AllBelowMean(w, name, t.children, m); }
  }

  lemma {:induction false} AllBelowMean(w: Wire, dir: string, f: Forest, m: Member)
    ensures m in AllBelow(w, dir, f) <==> LiesBelow(dir, f, m.file.path, m.content, m.file.executable) && Describes(w, m)
    decreases f
  {
    if f.Child? {
      AllFilesMean(w, dir + "/" + f.name, f.tree, m);
      AllBelowMean(w, dir, f.rest, m);
    }
  }

  function Included(p: Policy, l: seq<Member>): seq<Member> {
    if l == [] then []
    else (if Excluded(p, l[0].file.path) then [] else [l[0]]) + Included(p, l[1..])
  }

  lemma {:induction false} IncludedMeans(p: Policy, l: seq<Member>, m: Member)
    ensures m in Included(p, l) <==> m in l && !Excluded(p, m.file.path)
  {
    if l != [] {
      IncludedMeans(p, l[1..], m);
      assert l == [l[0]] + l[1..];
    }
  }

  lemma {:induction false} IncludedConcat(p: Policy, a: seq<Member>, b: seq<Member>)
    ensures Included(p, a + b) == Included(p, a) + Included(p, b)
  {
    if a == [] {
      assert a + b == b;
    } else {
      IncludedConcat(p, a[1..], b);
      assert (a + b)[1..] == a[1..] + b;
    }
  }

  lemma {:induction false} KeptAlone(p: Policy, m: Member)
    requires !Excluded(p, m.file.path)
    ensures Included(p, [m]) == [m]
  {
    assert [m][1..] == [];
  }

  /** Pruning an excluded directory drops no file the policy would keep. */
  lemma {:induction false} PrunedIsEmpty(p: Policy, w: Wire, name: string, t: Tree)
    requires Excluded(p, name)
    ensures Included(p, AllFiles(w, name, t)) == []
    decreases t
  {
    match t
    case Leaf(_, _) => assert AllFiles(w, name, t)[1..] == [];
    case Dir(children) => PrunedBelow(p, w, name, children);
  }

  lemma {:induction false} PrunedBelow(p: Policy, w: Wire, dir: string, f: Forest)
    requires Excluded(p, dir)
    ensures Included(p, AllBelow(w, dir, f)) == []
    decreases f
  {
    match f
    case Empty =>
    case Child(name, tree, rest) =>
      ExclusionIsInherited(p, dir, name);
      PrunedIsEmpty(p, w, dir + "/" + name, tree);
      PrunedBelow(p, w, dir, rest);
      IncludedConcat(p, AllFiles(w, dir + "/" + name, tree), AllBelow(w, dir, rest));
  }

  lemma {:induction false} DepthBelow(dir: string, name: string)
    requires '/' !in name
    ensures Depth(dir + "/" + name) == Depth(dir) + 1
  {
    SplitBelow(dir, name);
    assert Split(name) == [name];
  }

  /** The entries a pruned walk looks at, in order. */
  function Visits(p: Policy, name: string, t: Tree): seq<string>
    decreases t, 1
  {
    if Excluded(p, name) then [name] else [name] + VisitsInside(p, name, t)
  }

  function VisitsInside(p: Policy, name: string, t: Tree): seq<string>
    decreases t, 0
  {
    if t.Leaf? then [] else VisitsBelow(p, name, t.children)
  }

  function VisitsBelow(p: Policy, dir: string, f: Forest): seq<string>
    decreases f
  {
    match f
    case Empty => []
    case Child(name, tree, rest) => Visits(p, dir + "/" + name, tree) + VisitsBelow(p, dir, rest)
  }

  // ---------------------------------------------------------------- the walk

  function Paths(members: seq<Member>): (r: seq<string>)
    ensures |r| == |members| && forall i :: 0 <= i < |r| ==> r[i] == members[i].file.path
  {
    seq(|members|, i requires 0 <= i < |members| => members[i].file.path)
  }

  function MemberBytes(m: Member): nat { m.file.bytes }

  function Payload(members: seq<Member>): nat { Sums.Sum(MemberBytes, members) }

  lemma {:induction false} PayloadExtends(members: seq<Member>, m: Member)
    ensures Payload(members + [m]) == Payload(members) + m.file.bytes
  {
    assert (members + [m])[..|members|] == members;
  }

  /** One member is what was read, under a name the archive can carry. */
  predicate Sound(l: Limits, w: Wire, m: Member) {
    && m.file.bytes == |m.content| && m.file.sha256 == w.digest(m.content)
    && w.encodable(HeaderOf(m.file))
    && Admissible(m.file.path) && Depth(m.file.path) <= l.maxDepth
  }

  predicate AllSound(l: Limits, w: Wire, members: seq<Member>) {
    forall i :: 0 <= i < |members| ==> Sound(l, w, members[i])
  }

  // What a walk must stay within: the entries it looks at, and the files it takes.

  predicate Walkable(l: Limits, name: string) {
    Depth(name) <= l.maxDepth && name != "." && |name| <= 240 && ValidPath(name)
  }

  /** Nothing the policy keeps is reached twice. */
  predicate Once(p: Policy, seen: seq<string>) {
    forall i, j :: 0 <= i < j < |seen| && seen[i] == seen[j] ==> Excluded(p, seen[i])
  }

  predicate WalkFits(l: Limits, p: Policy, seen: seq<string>) {
    |seen| <= l.maxEntries && (forall i :: 0 <= i < |seen| ==> Walkable(l, seen[i])) && Once(p, seen)
  }

  predicate BundleFits(l: Limits, w: Wire, members: seq<Member>) {
    |members| <= l.maxFiles && Payload(members) <= l.maxExpanded && AllSound(l, w, members) && AllCompatible(Paths(members))
  }

  predicate Fits(l: Limits, p: Policy, w: Wire, seen: seq<string>, members: seq<Member>) {
    WalkFits(l, p, seen) && BundleFits(l, w, members)
  }

  lemma {:induction false} WalkFitsNext(l: Limits, p: Policy, seen: seq<string>, name: string)
    ensures WalkFits(l, p, seen + [name]) <==>
              && WalkFits(l, p, seen) && |seen| < l.maxEntries && Walkable(l, name)
              && (name in seen ==> Excluded(p, name))
  {
    var all := seen + [name];
    if WalkFits(l, p, all) {
      assert Walkable(l, all[|seen|]);
      forall i | 0 <= i < |seen| ensures Walkable(l, seen[i]) { assert Walkable(l, all[i]); }
      forall i, j | 0 <= i < j < |seen| && seen[i] == seen[j] ensures Excluded(p, seen[i]) { assert all[i] == all[j]; }
      if name in seen {
        var i :| 0 <= i < |seen| && seen[i] == name;
        assert all[i] == all[|seen|];
      }
    }
  }

  /** One more member still fits. */
  predicate Room(l: Limits, w: Wire, members: seq<Member>, m: Member) {
    && |members| < l.maxFiles && Payload(members) + m.file.bytes <= l.maxExpanded
    && Sound(l, w, m) && AllCompatible(Paths(members) + [m.file.path])
  }

  lemma {:induction false} BundleFitsNext(l: Limits, w: Wire, members: seq<Member>, m: Member)
    requires BundleFits(l, w, members)
    ensures BundleFits(l, w, members + [m]) <==> Room(l, w, members, m)
    ensures Paths(members + [m]) == Paths(members) + [m.file.path]
    ensures Payload(members + [m]) == Payload(members) + m.file.bytes
  {
    PayloadExtends(members, m);
    assert Paths(members + [m]) == Paths(members) + [m.file.path];
    if AllSound(l, w, members + [m]) { assert Sound(l, w, (members + [m])[|members|]); }
  }

  lemma {:induction false} PrefixCompatible(a: seq<string>, b: seq<string>)
    requires AllCompatible(a + b)
    ensures AllCompatible(a)
  {
    CompatiblePrefix(a + b, |a|);
    assert (a + b)[..|a|] == a;
  }

  /** A walk that goes beyond a limit never comes back within it. */
  lemma {:induction false} FitsPrefix(l: Limits, p: Policy, w: Wire, seen: seq<string>, more: seq<string>, members: seq<Member>, extra: seq<Member>)
    requires Fits(l, p, w, seen + more, members + extra)
    ensures Fits(l, p, w, seen, members)
  {
    forall i | 0 <= i < |seen| ensures Walkable(l, seen[i]) { assert Walkable(l, (seen + more)[i]); }
    forall i, j | 0 <= i < j < |seen| && seen[i] == seen[j] ensures Excluded(p, seen[i]) {
      assert (seen + more)[i] == (seen + more)[j];
    }
    forall i | 0 <= i < |members| ensures Sound(l, w, members[i]) { assert Sound(l, w, (members + extra)[i]); }
    PayloadConcat(members, extra);
    assert Paths(members + extra) == Paths(members) + Paths(extra);
    PrefixCompatible(Paths(members), Paths(extra));
  }

  datatype Screening = Refused | Pruned | Entered

  class Walker {
    const limits: Limits
    const policy: Policy
    const wire: Wire
    const index: PathSet
    var entries: nat
    var excludedEntries: nat
    var visited: set<string>
    var members: seq<Member>
    var expanded: nat
    /** Every entry looked at so far. */
    ghost var seen: seq<string>

    constructor (limits: Limits, policy: Policy, wire: Wire)
      ensures Valid() && members == [] && seen == [] && fresh(index)
      ensures this.limits == limits && this.policy == policy && this.wire == wire
    {
      this.limits, this.policy, this.wire := limits, policy, wire;
      index := new PathSet();
      entries, excludedEntries, visited, members, expanded, seen := 0, 0, {}, [], 0, [];
    }

    ghost predicate Tracking() reads this {
      && entries == |seen| && WalkFits(limits, policy, seen)
      && (forall name :: name in visited <==> name in seen && !Excluded(policy, name))
    }

    ghost predicate Holding() reads this, index {
      && index.Valid() && index.added == Paths(members)
      && expanded == Payload(members) && BundleFits(limits, wire, members)
    }

    ghost predicate Valid() reads this, index { Tracking() && Holding() }

    /** A file is taken exactly when the bundle still fits with it. */
    method TakeFile(name: string, content: Bytes, executable: bool) returns (ok: bool)
      requires Holding() && Depth(name) <= limits.maxDepth
      modifies this`members, this`expanded, index
      ensures ok <==> Room(limits, wire, old(members), Carried(wire, name, content, executable))
      ensures ok ==> Holding() && members == old(members) + [Carried(wire, name, content, executable)]
      ensures old(Tracking()) ==> Tracking()
    {
      if |members| >= limits.maxFiles || |content| > limits.maxExpanded - expanded { return false; }
      var added := index.Add(name);
      if !added { return false; }
      var file := File(name, |content|, wire.digest(content), executable);
      if !wire.encodable(HeaderOf(file)) { return false; }
      BundleFitsNext(limits, wire, members, Carried(wire, name, content, executable));
      expanded := expanded + |content|;
      members := members + [Member(file, content)];
      return true;
    }

    /** The checks on one entry before it is opened. */
    method Screen(name: string, depth: nat) returns (s: Screening)
      requires Tracking() && depth == Depth(name)
      modifies this`entries, this`excludedEntries, this`visited, this`seen
      ensures seen == old(seen) + [name]
      ensures s.Refused? <==> !WalkFits(limits, policy, seen)
      ensures !s.Refused? ==> Tracking() && (s.Pruned? <==> Excluded(policy, name)) && depth <= limits.maxDepth
    {
      WalkFitsNext(limits, policy, seen, name);
      ghost var before := seen;
      entries, seen := entries + 1, seen + [name];
      assert forall x :: x in seen <==> x in before || x == name;
      if entries > limits.maxEntries || depth > limits.maxDepth { return Refused; }
      if name == "." || |name| > 240 || !ValidPath(name) { return Refused; }
      var excluded := IsExcluded(policy, name);
      if excluded {
        excludedEntries := excludedEntries + 1;
        return Pruned;
      }
      if name in visited { return Refused; }
      visited := visited + {name};
      return Screening.Entered;
    }

    /** A walk completes exactly when everything it looks at and takes stays within the limits, and
        has then taken exactly the files below `name` that the policy does not exclude, in order,
        although it never looked into an excluded directory. */
    method Walk(name: string, t: Tree, depth: nat) returns (ok: bool)
      requires Valid() && Plain(t) && depth == Depth(name)
      modifies this, index
      ensures ok <==> Fits(limits, policy, wire, old(seen) + Visits(policy, name, t), old(members) + Included(policy, AllFiles(wire, name, t)))
      ensures ok ==>
                && Valid() && seen == old(seen) + Visits(policy, name, t)
                && members == old(members) + Included(policy, AllFiles(wire, name, t))
      decreases t, 1
    {
      var s := Screen(name, depth);
      match s {
        case Refused =>
          LookFurther(limits, policy, wire, old(seen), name, t, members);
          return false;
        case Pruned =>
          LookAway(limits, policy, wire, old(seen), name, t, members);
          return true;
        case Entered =>
          LookInside(policy, old(seen), name, t);
          ok := Open(name, t, depth);
      }
    }

    /** An entry that passed: a file is taken, a directory walked. */
    method Open(name: string, t: Tree, depth: nat) returns (ok: bool)
      requires Valid() && Plain(t) && depth == Depth(name) <= limits.maxDepth && !Excluded(policy, name)
      modifies this, index
      ensures ok <==> Fits(limits, policy, wire, old(seen) + VisitsInside(policy, name, t), old(members) + Included(policy, AllFiles(wire, name, t)))
      ensures ok ==>
                && Valid() && seen == old(seen) + VisitsInside(policy, name, t)
                && members == old(members) + Included(policy, AllFiles(wire, name, t))
      decreases t, 0
    {
      match t
      case Dir(children) => ok := WalkAll(name, children, depth);
      case Leaf(_, _) => ok := OpenFile(name, t);
    }

    method OpenFile(name: string, t: Tree) returns (ok: bool)
      requires Valid() && t.Leaf? && Depth(name) <= limits.maxDepth && !Excluded(policy, name)
      modifies this, index
      ensures ok <==> Fits(limits, policy, wire, old(seen) + VisitsInside(policy, name, t), old(members) + Included(policy, AllFiles(wire, name, t)))
      ensures ok ==>
                && Valid() && seen == old(seen) + VisitsInside(policy, name, t)
                && members == old(members) + Included(policy, AllFiles(wire, name, t))
    {
      LookAt(limits, policy, wire, seen, name, t, members);
      ok := TakeFile(name, t.content, t.executable);
    }

    method WalkAll(dir: string, f: Forest, depth: nat) returns (ok: bool)
      requires Valid() && PlainForest(f) && depth == Depth(dir)
      modifies this, index
      ensures ok <==> Fits(limits, policy, wire, old(seen) + VisitsBelow(policy, dir, f), old(members) + Included(policy, AllBelow(wire, dir, f)))
      ensures ok ==>
                && Valid() && seen == old(seen) + VisitsBelow(policy, dir, f)
                && members == old(members) + Included(policy, AllBelow(wire, dir, f))
      decreases f
    {
      match f
      case Empty =>
        assert seen + [] == seen && members + [] == members;
        return true;
      case Child(name, tree, rest) =>
        DepthBelow(dir, name);
        ThenTheRest(limits, policy, wire, dir, f, seen, members);
        ok := Walk(dir + "/" + name, tree, depth + 1);
        if !ok { return; }
        ok := WalkAll(dir, rest, depth);
    }

    /** An include is screened before it is opened; a missing one matters only if it is kept. */
    method WalkInclude(name: string, t: Option<Tree>) returns (ok: bool)
      requires Valid() && (t.Some? ==> Plain(t.value))
      modifies this, index
      ensures ok <==>
                && Fits(limits, policy, wire, old(seen) + VisitsOf(policy, name, t), old(members) + KeptOf(policy, wire, name, t))
                && (t.None? ==> Excluded(policy, name))
      ensures ok ==>
                && Valid() && seen == old(seen) + VisitsOf(policy, name, t)
                && members == old(members) + KeptOf(policy, wire, name, t)
    {
      match t
      case Some(tree) => ok := Walk(name, tree, Depth(name));
      case None =>
        assert members + [] == members;
        var s := Screen(name, Depth(name));
        ok := s.Pruned?;
    }
  }

  lemma {:induction false} LookFurther(l: Limits, p: Policy, w: Wire, seen: seq<string>, name: string, t: Tree, members: seq<Member>)
    requires !WalkFits(l, p, seen + [name])
    ensures !Fits(l, p, w, seen + Visits(p, name, t), members + Included(p, AllFiles(w, name, t)))
  {
    var more := Visits(p, name, t)[1..];
    assert seen + Visits(p, name, t) == (seen + [name]) + more;
    if Fits(l, p, w, (seen + [name]) + more, members + Included(p, AllFiles(w, name, t))) {
      FitsPrefix(l, p, w, seen + [name], more, members, Included(p, AllFiles(w, name, t)));
    }
  }

  lemma {:induction false} LookAway(l: Limits, p: Policy, w: Wire, seen: seq<string>, name: string, t: Tree, members: seq<Member>)
    requires Excluded(p, name) && WalkFits(l, p, seen + [name]) && BundleFits(l, w, members)
    ensures seen + Visits(p, name, t) == seen + [name] && members + Included(p, AllFiles(w, name, t)) == members
    ensures Fits(l, p, w, seen + Visits(p, name, t), members + Included(p, AllFiles(w, name, t)))
  {
    PrunedIsEmpty(p, w, name, t);
    assert members + [] == members;
  }

  lemma {:induction false} LookInside(p: Policy, seen: seq<string>, name: string, t: Tree)
    requires !Excluded(p, name)
    ensures seen + Visits(p, name, t) == (seen + [name]) + VisitsInside(p, name, t)
  {
  }

  lemma {:induction false} LookAt(l: Limits, p: Policy, w: Wire, seen: seq<string>, name: string, t: Tree, members: seq<Member>)
    requires t.Leaf? && !Excluded(p, name) && WalkFits(l, p, seen) && BundleFits(l, w, members)
    ensures var m := Carried(w, name, t.content, t.executable);
            && seen + VisitsInside(p, name, t) == seen
            && members + Included(p, AllFiles(w, name, t)) == members + [m]
            && (Fits(l, p, w, seen + VisitsInside(p, name, t), members + Included(p, AllFiles(w, name, t))) <==> Room(l, w, members, m))
  {
    var m := Carried(w, name, t.content, t.executable);
    assert seen + [] == seen;
    KeptAlone(p, m);
    BundleFitsNext(l, w, members, m);
  }

  /** The first child's part of a directory, and then the rest. */
  lemma {:induction false} ThenTheRest(l: Limits, p: Policy, w: Wire, dir: string, f: Forest, seen: seq<string>, members: seq<Member>)
    requires f.Child?
    ensures var v, k := Visits(p, dir + "/" + f.name, f.tree), Included(p, AllFiles(w, dir + "/" + f.name, f.tree));
            && seen + VisitsBelow(p, dir, f) == (seen + v) + VisitsBelow(p, dir, f.rest)
            && members + Included(p, AllBelow(w, dir, f)) == (members + k) + Included(p, AllBelow(w, dir, f.rest))
            && (Fits(l, p, w, seen + VisitsBelow(p, dir, f), members + Included(p, AllBelow(w, dir, f))) ==>
                  Fits(l, p, w, seen + v, members + k))
  {
    var v, k := Visits(p, dir + "/" + f.name, f.tree), Included(p, AllFiles(w, dir + "/" + f.name, f.tree));
    IncludedConcat(p, AllFiles(w, dir + "/" + f.name, f.tree), AllBelow(w, dir, f.rest));
    assert seen + VisitsBelow(p, dir, f) == (seen + v) + VisitsBelow(p, dir, f.rest);
    assert members + Included(p, AllBelow(w, dir, f)) == (members + k) + Included(p, AllBelow(w, dir, f.rest));
    if Fits(l, p, w, (seen + v) + VisitsBelow(p, dir, f.rest), (members + k) + Included(p, AllBelow(w, dir, f.rest))) {
      FitsPrefix(l, p, w, seen + v, VisitsBelow(p, dir, f.rest), members + k, Included(p, AllBelow(w, dir, f.rest)));
    }
  }

  // ---------------------------------------------------------------- the selection

  function VisitsOf(p: Policy, name: string, t: Option<Tree>): seq<string> {
    if t.None? then [name] else Visits(p, name, t.value)
  }

  function KeptOf(p: Policy, w: Wire, name: string, t: Option<Tree>): seq<Member> {
    if t.None? then [] else Included(p, AllFiles(w, name, t.value))
  }

  function VisitsAll(p: Policy, selection: seq<string>, lookup: string -> Option<Tree>): seq<string> {
    if selection == [] then []
    else
      var last := selection[|selection| - 1];
      VisitsAll(p, selection[..|selection| - 1], lookup) + VisitsOf(p, last, lookup(last))
  }

  function KeptAll(p: Policy, w: Wire, selection: seq<string>, lookup: string -> Option<Tree>): seq<Member> {
    if selection == [] then []
    else
      var last := selection[|selection| - 1];
      KeptAll(p, w, selection[..|selection| - 1], lookup) + KeptOf(p, w, last, lookup(last))
  }

  /** Every selected subtree exists, unless the policy excludes its root. */
  predicate Present(p: Policy, selection: seq<string>, lookup: string -> Option<Tree>) {
    forall i :: 0 <= i < |selection| ==> lookup(selection[i]).Some? || Excluded(p, selection[i])
  }

  predicate Selectable(l: Limits, p: Policy, w: Wire, selection: seq<string>, lookup: string -> Option<Tree>) {
    Present(p, selection, lookup) && Fits(l, p, w, VisitsAll(p, selection, lookup), KeptAll(p, w, selection, lookup))
  }

  lemma {:induction false} SelectableNext(l: Limits, p: Policy, w: Wire, selection: seq<string>, i: nat, lookup: string -> Option<Tree>)
    requires i < |selection|
    ensures var name := selection[i];
            && VisitsAll(p, selection[..i + 1], lookup) == VisitsAll(p, selection[..i], lookup) + VisitsOf(p, name, lookup(name))
            && KeptAll(p, w, selection[..i + 1], lookup) == KeptAll(p, w, selection[..i], lookup) + KeptOf(p, w, name, lookup(name))
            && (Present(p, selection[..i + 1], lookup) <==>
                  Present(p, selection[..i], lookup) && (lookup(name).Some? || Excluded(p, name)))
  {
    assert selection[..i + 1][..i] == selection[..i];
    assert selection[..i + 1] == selection[..i] + [selection[i]];
    if Present(p, selection[..i + 1], lookup) {
      forall k | 0 <= k < i ensures lookup(selection[..i][k]).Some? || Excluded(p, selection[..i][k]) {
        assert selection[..i + 1][k] == selection[..i][k];
      }
      assert selection[..i + 1][i] == selection[i];
    }
  }

  lemma {:induction false} SelectablePrefix(l: Limits, p: Policy, w: Wire, selection: seq<string>, i: nat, lookup: string -> Option<Tree>)
    requires i <= |selection| && Selectable(l, p, w, selection, lookup)
    ensures Selectable(l, p, w, selection[..i], lookup)
    decreases |selection| - i
  {
    if i == |selection| {
      assert selection[..i] == selection;
    } else {
      SelectablePrefix(l, p, w, selection, i + 1, lookup);
      SelectableNext(l, p, w, selection, i, lookup);
      FitsPrefix(l, p, w, VisitsAll(p, selection[..i], lookup), VisitsOf(p, selection[i], lookup(selection[i])),
                 KeptAll(p, w, selection[..i], lookup), KeptOf(p, w, selection[i], lookup(selection[i])));
    }
  }

  // ---------------------------------------------------------------- the plan

  const VERSION := "compute-relay/bundle/v1"

  function ManifestOf(members: seq<Member>): Manifest {
    Manifest(VERSION, seq(|members|, i requires 0 <= i < |members| => members[i].file))
  }

  function PathOf(m: Member): string { m.file.path }

  predicate Ascending(paths: seq<string>) {
    forall i, j :: 0 <= i < j < |paths| ==> Leq(paths[i], paths[j]) && paths[i] != paths[j]
  }

  /** Everything the writer and the inspector rely on. */
  predicate Prepared(l: Limits, w: Wire, members: seq<Member>) {
    && 1 <= |members| <= l.maxFiles
    && AllSound(l, w, members)
    && Payload(members) <= l.maxExpanded
    && AllCompatible(Paths(members))
    && Ascending(Paths(members))
    && |w.encode(ManifestOf(members))| <= l.maxManifest
  }

  lemma {:induction false} PayloadConcat(a: seq<Member>, b: seq<Member>)
    ensures Payload(a + b) == Payload(a) + Payload(b)
  {
    Sums.SumConcat(MemberBytes, a, b);
  }

  lemma {:induction false} PathsAround(left: seq<Member>, x: Member, right: seq<Member>)
    ensures multiset(Paths(left + [x] + right)) == multiset(Paths(left + right)) + multiset{x.file.path}
  {
    assert Paths(left + [x] + right) == Paths(left) + [x.file.path] + Paths(right);
    assert Paths(left + right) == Paths(left) + Paths(right);
  }

  /** Sorting changes neither the payload nor the collection of paths. */
  lemma {:induction false} Reordered(a: seq<Member>, b: seq<Member>)
    requires multiset(a) == multiset(b)
    ensures Payload(a) == Payload(b) && multiset(Paths(a)) == multiset(Paths(b))
  {
    Sums.SumPermuted(MemberBytes, a, b);
    PathsPermuted(a, b);
  }

  lemma {:induction false} PathsPermuted(a: seq<Member>, b: seq<Member>)
    requires multiset(a) == multiset(b)
    ensures multiset(Paths(a)) == multiset(Paths(b))
    decreases |a|
  {
    if a == [] {
      assert b == [] by { assert |multiset(b)| == |b|; }
    } else {
      var init, x := a[..|a| - 1], a[|a| - 1];
      assert a == init + [x] == init + [x] + [];
      var i := Sums.TakeOut(init, x, b);
      PathsPermuted(init, b[..i] + b[i + 1..]);
      PathsAround(b[..i], x, b[i + 1..]);
      PathsAround(init, x, []);
      assert init + [] == init;
    }
  }

  lemma {:induction false} SortedIsAscending(members: seq<Member>)
    requires Sorted(PathOf, members) && AllCompatible(Paths(members))
    ensures Ascending(Paths(members))
  {
    var paths := Paths(members);
    forall i, j | 0 <= i < j < |paths| ensures Leq(paths[i], paths[j]) && paths[i] != paths[j] {
      assert Leq(PathOf(members[i]), PathOf(members[j]));
      assert Compatible(paths[i], paths[j]);
    }
  }

  /** A file of an included subtree that the policy keeps, with its content. */
  ghost predicate Chosen(p: Policy, w: Wire, includes: seq<string>, lookup: string -> Option<Tree>, m: Member) {
    && !Excluded(p, m.file.path)
    && exists name :: name in includes && lookup(name).Some? && m in AllFiles(w, name, lookup(name).value)
  }

  lemma {:induction false} KeptIsChosen(p: Policy, w: Wire, selection: seq<string>, lookup: string -> Option<Tree>, m: Member)
    ensures m in KeptAll(p, w, selection, lookup) <==> Chosen(p, w, selection, lookup, m)
  {
    if selection != [] {
      var init, last := selection[..|selection| - 1], selection[|selection| - 1];
      assert selection == init + [last];
      KeptIsChosen(p, w, init, lookup, m);
      if lookup(last).Some? { IncludedMeans(p, AllFiles(w, last, lookup(last).value), m); }
      if Chosen(p, w, init, lookup, m) {
        var name :| name in init && lookup(name).Some? && m in AllFiles(w, name, lookup(name).value);
        assert name in selection;
      }
      if Chosen(p, w, selection, lookup, m) {
        var name :| name in selection && lookup(name).Some? && m in AllFiles(w, name, lookup(name).value);
        assert name in init || name == last;
      }
    }
  }

  function Same(s: string): string { s }

  /** The files the included subtrees offer, in walking order. */
  function Offered(p: Policy, w: Wire, includes: seq<string>, lookup: string -> Option<Tree>): seq<Member> {
    KeptAll(p, w, Arranged(Same, includes), lookup)
  }

  /** Exactly when a selection can become a bundle. */
  predicate Preparable(l: Limits, p: Policy, w: Wire, includes: seq<string>, lookup: string -> Option<Tree>) {
    && 1 <= |includes| <= l.maxFiles
    && Selectable(l, p, w, Arranged(Same, includes), lookup)
    && Offered(p, w, includes, lookup) != []
    && |w.encode(ManifestOf(Arranged(PathOf, Offered(p, w, includes, lookup))))| <= l.maxManifest
  }

  /** Preparation succeeds exactly on a preparable selection, and then holds exactly the non-excluded
      files of the included subtrees, each once, in ascending order and within every limit. */
  method Prepare(l: Limits, p: Policy, w: Wire, includes: seq<string>, lookup: string -> Option<Tree>)
    returns (plan: Option<seq<Member>>)
    requires forall name :: lookup(name).Some? ==> Plain(lookup(name).value)
    ensures plan.Some? <==> Preparable(l, p, w, includes, lookup)
    ensures plan.Some? ==> Prepared(l, w, plan.value)
    ensures plan.Some? ==> forall m :: m in plan.value <==> Chosen(p, w, includes, lookup, m)
  {
    if includes == [] || |includes| > l.maxFiles { return None; }
    var selection := Sort(Same, includes);
    var found := Select(l, p, w, selection, lookup);
    if found.None? || found.value == [] { return None; }
    var members := Sort(PathOf, found.value);
    if |w.encode(ManifestOf(members))| > l.maxManifest { return None; }
    PreparedBySorting(l, w, found.value, members);
    forall m ensures m in members <==> Chosen(p, w, includes, lookup, m) {
      KeptIsChosen(p, w, selection, lookup, m);
      SameElements(found.value, members);
      SameChoice(p, w, includes, selection, lookup, m);
    }
    return Some(members);
  }

  method Select(l: Limits, p: Policy, w: Wire, selection: seq<string>, lookup: string -> Option<Tree>)
    returns (found: Option<seq<Member>>)
    requires forall name :: lookup(name).Some? ==> Plain(lookup(name).value)
    ensures found.Some? <==> Selectable(l, p, w, selection, lookup)
    ensures found.Some? ==> found.value == KeptAll(p, w, selection, lookup)
  {
    var walker := new Walker(l, p, w);
    for i := 0 to |selection|
      invariant fresh(walker) && fresh(walker.index) && walker.Valid()
      invariant walker.limits == l && walker.policy == p && walker.wire == w
      invariant walker.seen == VisitsAll(p, selection[..i], lookup)
      invariant walker.members == KeptAll(p, w, selection[..i], lookup)
      invariant Present(p, selection[..i], lookup)
    {
      SelectableNext(l, p, w, selection, i, lookup);
      var ok := walker.WalkInclude(selection[i], lookup(selection[i]));
      if !ok {
        if Selectable(l, p, w, selection, lookup) { SelectablePrefix(l, p, w, selection, i + 1, lookup); }
        return None;
      }
    }
    assert selection[..|selection|] == selection;
    return Some(walker.members);
  }

  lemma {:induction false} SameChoice(p: Policy, w: Wire, a: seq<string>, b: seq<string>, lookup: string -> Option<Tree>, m: Member)
    requires multiset(a) == multiset(b)
    ensures Chosen(p, w, a, lookup, m) <==> Chosen(p, w, b, lookup, m)
  {
    SameElements(a, b);
  }

  lemma {:induction false} SameMembers(found: seq<Member>, sorted: seq<Member>)
    requires multiset(sorted) == multiset(found)
    ensures |sorted| == |found|
    ensures forall i :: 0 <= i < |sorted| ==> sorted[i] in found
  {
    assert |sorted| == |multiset(sorted)| && |found| == |multiset(found)|;
    forall i | 0 <= i < |sorted| ensures sorted[i] in found {
      assert sorted[i] in multiset(sorted);
    }
  }

  lemma {:induction false} PreparedBySorting(l: Limits, w: Wire, found: seq<Member>, sorted: seq<Member>)
    requires found != [] && AllSound(l, w, found)
    requires AllCompatible(Paths(found)) && Sorted(PathOf, sorted) && multiset(sorted) == multiset(found)
    ensures |sorted| == |found| && AllSound(l, w, sorted) && Payload(sorted) == Payload(found)
    ensures AllCompatible(Paths(sorted)) && Ascending(Paths(sorted))
    ensures multiset(Paths(sorted)) == multiset(Paths(found))
  {
    SameMembers(found, sorted);
    Reordered(found, sorted);
    OrderIsIrrelevant(Paths(found), Paths(sorted));
    SortedIsAscending(sorted);
  }

  lemma {:induction false} SameElements<T>(a: seq<T>, b: seq<T>)
    requires multiset(a) == multiset(b)
    ensures forall x :: x in a <==> x in b
  {
    assert forall x :: x in multiset(a) <==> x in a;
    assert forall x :: x in multiset(b) <==> x in b;
  }
}
