/** Case-insensitive path collisions: the incremental index against the pairwise rule it decides. */
module PathSets {
  import opened Names
  import Pairwise

  /** `d` is a proper directory of `s`. */
  predicate DirAt(s: string, i: nat) { i < |s| && s[i] == '/' }

  predicate CutAt(s: string, i: nat) { DirAt(s, i) || i == |s| }

  predicate SameFold(a: string, b: string) { Fold(a) == Fold(b) }

  /** As a file, `a` would stand where `b` needs a directory. */
  predicate Blocks(a: string, b: string) { |a| < |b| && b[|a|] == '/' && SameFold(a, b[..|a|]) }

  /** A folded directory has one spelling. */
  predicate SameSpelling(a: string, b: string) {
    forall i :: 0 <= i < |a| && i < |b| && DirAt(a, i) && DirAt(b, i) && SameFold(a[..i], b[..i]) ==> a[..i] == b[..i]
  }

  predicate Compatible(a: string, b: string) {
    !SameFold(a, b) && !Blocks(a, b) && !Blocks(b, a) && SameSpelling(a, b)
  }

  predicate AllCompatible(l: seq<string>) { Pairwise.Holds(Compatible, l) }

  lemma {:induction false} CompatibleIsSymmetric()
    ensures Pairwise.Symmetric(Compatible)
  {
  }

  lemma {:induction false} OrderIsIrrelevant(l: seq<string>, m: seq<string>)
    requires multiset(l) == multiset(m)
    ensures AllCompatible(l) <==> AllCompatible(m)
  {
    CompatibleIsSymmetric();
    Pairwise.Permuted(Compatible, l, m);
  }

  /** What the two maps hold after accepting the names `added`: every file, every prefix under its
      one spelling, and nothing else. */
  ghost predicate Indexes(names: map<string, string>, files: set<string>, added: seq<string>) {
    FilesAre(files, added) && NamesCome(names, added) && NamesHold(names, added)
  }

  ghost predicate FilesAre(files: set<string>, added: seq<string>) {
    forall k :: k in files <==> exists a :: a in added && k == Fold(a)
  }

  ghost predicate PrefixOf(added: seq<string>, k: string, prefix: string) {
    exists a, i :: a in added && CutAt(a, i) && k == Fold(a[..i]) && prefix == a[..i]
  }

  ghost predicate NamesCome(names: map<string, string>, added: seq<string>) {
    forall k :: k in names ==> PrefixOf(added, k, names[k])
  }

  ghost predicate NamesHold(names: map<string, string>, added: seq<string>) {
    forall a, i :: a in added && CutAt(a, i) ==> Fold(a[..i]) in names && names[Fold(a[..i])] == a[..i]
  }

  /** The index has room for the prefix of `name` that ends at `i`. */
  ghost predicate Clear(names: map<string, string>, files: set<string>, name: string, i: nat)
    requires i <= |name|
  {
    var key := Fold(name[..i]);
    && key !in files
    && (key in names ==> names[key] == name[..i])
    && (i == |name| ==> key !in names)
  }

  ghost predicate AllClear(names: map<string, string>, files: set<string>, name: string) {
    forall i :: 0 <= i <= |name| && CutAt(name, i) ==> Clear(names, files, name, i)
  }

  lemma {:induction false} ClearIsCompatible(names: map<string, string>, files: set<string>, added: seq<string>, name: string, a: string)
    requires Indexes(names, files, added) && a in added && AllClear(names, files, name)
    ensures Compatible(a, name)
  {
    assert name[..|name|] == name && a[..|a|] == a;
    assert CutAt(a, |a|) && Clear(names, files, name, |name|) && Fold(a) in files;
    assert DirAt(name, |a|) ==> Clear(names, files, name, |a|);
    assert DirAt(a, |name|) ==> CutAt(a, |name|) && Fold(a[..|name|]) in names;
    forall i | 0 <= i < |a| && i < |name| && DirAt(a, i) && DirAt(name, i) && SameFold(a[..i], name[..i])
      ensures a[..i] == name[..i]
    {
      assert Clear(names, files, name, i) && CutAt(a, i);
    }
  }

  /** Two compatible names share a folded prefix only as a directory, spelled alike. */
  lemma {:induction false} SharedPrefix(a: string, b: string, i: nat, j: nat)
    requires Compatible(a, b) && CutAt(a, i) && CutAt(b, j) && SameFold(a[..i], b[..j])
    ensures i == j && i < |a| && j < |b| && a[..i] == b[..j]
  {
    assert |Fold(a[..i])| == i && |Fold(b[..j])| == j;
    assert a[..|a|] == a && b[..|b|] == b;
    assert !SameFold(a, b) && !Blocks(a, b) && !Blocks(b, a);
  }

  lemma {:induction false} CompatibleIsClear(names: map<string, string>, files: set<string>, added: seq<string>, name: string, i: nat)
    requires Indexes(names, files, added) && i <= |name| && CutAt(name, i)
    requires forall a :: a in added ==> Compatible(a, name)
    ensures Clear(names, files, name, i)
  {
    var key := Fold(name[..i]);
    forall a, j: nat | a in added && CutAt(a, j) && Fold(a[..j]) == key
      ensures i < |name| && j < |a| && a[..j] == name[..i]
    {
      SharedPrefix(a, name, j, i);
    }
    assert forall a :: a in added ==> CutAt(a, |a|) && a[..|a|] == a;
  }

  /** A name enters the index exactly when it is compatible with every name already in it. */
  lemma {:induction false} IndexDecides(names: map<string, string>, files: set<string>, added: seq<string>, name: string)
    requires Indexes(names, files, added) && AllCompatible(added)
    ensures AllClear(names, files, name) <==> AllCompatible(added + [name])
  {
    Pairwise.HoldsExtends(Compatible, added, name);
    if AllClear(names, files, name) {
      forall a | a in multiset(added) ensures Compatible(a, name) {
        ClearIsCompatible(names, files, added, name, a);
      }
    }
    if AllCompatible(added + [name]) {
      assert forall a :: a in added ==> a in multiset(added);
      forall i | 0 <= i <= |name| && CutAt(name, i) ensures Clear(names, files, name, i) {
        CompatibleIsClear(names, files, added, name, i);
      }
    }
  }

  /** `names` is `names0` with the prefixes of `name` that end before `at`. */
  ghost predicate Entered(names0: map<string, string>, names: map<string, string>, name: string, at: nat) {
    && (forall k :: k in names0 ==> k in names && names[k] == names0[k])
    && (forall i :: 0 <= i < at && i <= |name| && CutAt(name, i) ==> Fold(name[..i]) in names && names[Fold(name[..i])] == name[..i])
    && (forall k :: k in names && k !in names0 ==>
          exists i :: 0 <= i < at && i <= |name| && CutAt(name, i) && k == Fold(name[..i]) && names[k] == name[..i])
  }

  lemma {:induction false} EnterNext(names0: map<string, string>, names: map<string, string>, name: string, at: nat, next: nat)
    requires Entered(names0, names, name, at) && at < next <= |name| + 1 && at <= |name| && CutAt(name, at)
    requires Fold(name[..at]) in names0 ==> names0[Fold(name[..at])] == name[..at]
    requires forall i :: at < i < next && i <= |name| ==> !CutAt(name, i)
    ensures Entered(names0, names[Fold(name[..at]) := name[..at]], name, next)
  {
    var key := Fold(name[..at]);
    var names' := names[key := name[..at]];
    forall i | 0 <= i < next && i <= |name| && CutAt(name, i)
      ensures Fold(name[..i]) in names' && names'[Fold(name[..i])] == name[..i]
    {
      if i != at { assert i < at && |Fold(name[..i])| == i != |key|; }
    }
    forall k | k in names' && k !in names0
      ensures exists i :: 0 <= i < next && i <= |name| && CutAt(name, i) && k == Fold(name[..i]) && names'[k] == name[..i]
    {
      if k == key {
        assert 0 <= at < next && CutAt(name, at) && k == Fold(name[..at]);
      } else {
        var i :| 0 <= i < at && i <= |name| && CutAt(name, i) && k == Fold(name[..i]) && names[k] == name[..i];
        assert i < next;
      }
    }
  }

  /** The prefix now examined is looked up as if the name's own shorter prefixes were not there. */
  lemma {:induction false} OwnPrefixesDoNotMatter(names0: map<string, string>, names: map<string, string>, name: string, at: nat)
    requires Entered(names0, names, name, at) && at <= |name|
    ensures Fold(name[..at]) in names <==> Fold(name[..at]) in names0
  {
  }

  lemma {:induction false} FilesExtend(files: set<string>, added: seq<string>, name: string)
    requires FilesAre(files, added)
    ensures FilesAre(files + {Fold(name)}, added + [name])
  {
    var all := added + [name];
    assert all[|added|] == name;
    forall k | k in files + {Fold(name)} ensures exists a :: a in all && k == Fold(a) {
      if k in files {
        var a :| a in added && k == Fold(a);
        assert a in all;
      }
    }
  }

  lemma {:induction false} NamesExtend(names0: map<string, string>, names: map<string, string>, added: seq<string>, name: string)
    requires NamesCome(names0, added) && Entered(names0, names, name, |name| + 1)
    ensures NamesCome(names, added + [name])
  {
    var all := added + [name];
    assert all[|added|] == name;
    forall k | k in names ensures PrefixOf(all, k, names[k]) {
      if k in names0 {
        var a, i :| a in added && CutAt(a, i) && k == Fold(a[..i]) && names0[k] == a[..i];
        assert a in all;
      } else {
        var i :| 0 <= i < |name| + 1 && i <= |name| && CutAt(name, i) && k == Fold(name[..i]) && names[k] == name[..i];
        assert name in all;
      }
    }
  }

  lemma {:induction false} EnteredAll(names0: map<string, string>, names: map<string, string>, files: set<string>, added: seq<string>, name: string)
    requires Indexes(names0, files, added) && Entered(names0, names, name, |name| + 1)
    ensures Indexes(names, files + {Fold(name)}, added + [name])
  {
    FilesExtend(files, added, name);
    NamesExtend(names0, names, added, name);
    assert NamesHold(names, added + [name]);
  }

  /** What the archive accepts as a member name at all. */
  predicate Admissible(name: string) {
    name != "." && |name| <= 240 && ValidPath(name) && !DefaultExcluded(name)
  }

  class PathSet {
    var names: map<string, string>
    var files: set<string>
    ghost var added: seq<string>

    constructor ()
      ensures Valid() && added == []
    {
      names, files, added := map[], {}, [];
    }

    ghost predicate Valid() reads this { Indexes(names, files, added) && AllCompatible(added) }

    /** Look up and record every prefix of the name, shortest first. */
    method Enter(name: string) returns (ok: bool)
      modifies this`names, this`files
      ensures ok <==> AllClear(old(names), old(files), name)
      ensures ok ==> Entered(old(names), names, name, |name| + 1) && files == old(files) + {Fold(name)}
    {
      ghost var names0, files0 := names, files;
      assert name[..|name|] == name;
      var at := NextCut(name, 0);
      while true
        invariant at <= |name| && CutAt(name, at)
        invariant files == files0
        invariant Entered(names0, names, name, at)
        invariant forall i :: 0 <= i < at && CutAt(name, i) ==> Clear(names0, files0, name, i)
        decreases |name| - at
      {
        var prefix := name[..at];
        var key := Fold(prefix);
        OwnPrefixesDoNotMatter(names0, names, name, at);
        if key in names && names[key] != prefix { return false; }
        if key in files { return false; }
        if at == |name| && key in names { return false; }
        assert Clear(names0, files0, name, at);
        EnterNext(names0, names, name, at, if at == |name| then |name| + 1 else NextCut(name, at + 1));
        names := names[key := prefix];
        if at == |name| {
          files := files + {key};
          return true;
        }
        at := NextCut(name, at + 1);
      }
    }

    /** A name is accepted exactly when it is admissible and the pairwise rule still holds. After a
        refusal the index is of no further use. */
    method Add(name: string) returns (ok: bool)
      requires Valid()
      modifies this
      ensures ok <==> Admissible(name) && AllCompatible(old(added) + [name])
      ensures ok ==> Valid() && added == old(added) + [name]
    {
      if name == "." || |name| > 240 || !ValidPath(name) || DefaultExcluded(name) { return false; }
      IndexDecides(names, files, added, name);
      ghost var names0, files0 := names, files;
      ok := Enter(name);
      if ok {
        EnteredAll(names0, names, files0, added, name);
        added := added + [name];
      }
    }
  }

  /** Acceptance of a whole list, in whatever order it comes. */
  method AcceptAll(l: seq<string>) returns (ok: bool)
    ensures ok <==> AllCompatible(l) && forall i :: 0 <= i < |l| ==> Admissible(l[i])
  {
    var index := new PathSet();
    for i := 0 to |l|
      invariant fresh(index) && index.Valid() && index.added == l[..i]
      invariant forall k :: 0 <= k < i ==> Admissible(l[k])
    {
      assert l[..i + 1] == l[..i] + [l[i]];
      ok := index.Add(l[i]);
      if !ok {
        CompatiblePrefix(l, i + 1);
        return;
      }
    }
    assert l[..|l|] == l;
    return true;
  }

  lemma {:induction false} CompatiblePrefix(l: seq<string>, n: nat)
    requires n <= |l|
    ensures AllCompatible(l) ==> AllCompatible(l[..n])
  {
  }

  method EnterRunnerPath(names0: map<string, string>, leaves: set<string>, path: string)
    returns (ok: bool, names: map<string, string>)
    ensures ok <==> AllClear(names0, leaves, path)
    ensures ok ==> Entered(names0, names, path, |path| + 1)
  {
    names := names0;
    assert path[..|path|] == path;
    var at := NextCut(path, 0);
    while true
      invariant at <= |path| && CutAt(path, at)
      invariant Entered(names0, names, path, at)
      invariant forall i :: 0 <= i < at && CutAt(path, i) ==> Clear(names0, leaves, path, i)
      decreases |path| - at
    {
      var prefix := path[..at];
      var key := Fold(prefix);
      OwnPrefixesDoNotMatter(names0, names, path, at);
      if key in leaves || (key in names && names[key] != prefix) || (at == |path| && key in names) {
        assert !Clear(names0, leaves, path, at);
        return false, names;
      }
      assert Clear(names0, leaves, path, at);
      var next := if at == |path| then |path| + 1 else NextCut(path, at + 1);
      EnterNext(names0, names, path, at, next);
      names := names[key := prefix];
      if at == |path| { return true, names; }
      at := next;
    }
  }

  /** The runner's own check, on the paths it will create: the same rule. */
  method DisjointRunnerPaths(paths: seq<string>) returns (ok: bool)
    ensures ok <==> AllCompatible(paths)
  {
    var names: map<string, string>, leaves: set<string> := map[], {};
    for k := 0 to |paths|
      invariant Indexes(names, leaves, paths[..k]) && AllCompatible(paths[..k])
    {
      assert paths[..k + 1] == paths[..k] + [paths[k]];
      IndexDecides(names, leaves, paths[..k], paths[k]);
      CompatiblePrefix(paths, k + 1);
      ghost var names0 := names;
      ok, names := EnterRunnerPath(names, leaves, paths[k]);
      if !ok { return; }
      EnteredAll(names0, names, leaves, paths[..k], paths[k]);
      leaves := leaves + {Fold(paths[k])};
    }
    assert paths[..|paths|] == paths;
    return true;
  }
}
