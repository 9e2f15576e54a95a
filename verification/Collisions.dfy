/** Overlapping artifact paths: the sort-and-look-back check against comparing every pair. */
module Collisions {
  import opened Names
  import opened Sorting
  import Pairwise

  /** One name is the other, or a directory of the other. */
  predicate Clash(a: string, b: string) { a == b || b + "/" <= a || a + "/" <= b }

  function Self(s: string): string { s }

  predicate Apart(a: string, b: string) { !Clash(a, b) }

  predicate Overlap(a: string, b: string) { Clash(Fold(a), Fold(b)) }

  predicate Disjoint(a: string, b: string) { !Overlap(a, b) }

  /** Admission's pairwise search. */
  method Overlaps(paths: seq<string>, next: string) returns (found: bool)
    ensures found <==> exists i :: 0 <= i < |paths| && Overlap(paths[i], next)
  {
    var n := Fold(next);
    for i := 0 to |paths|
      invariant forall k :: 0 <= k < i ==> !Overlap(paths[k], next)
    {
      var p := Fold(paths[i]);
      if p == n || n + "/" <= p || p + "/" <= n { return true; }
    }
    return false;
  }

  // ---------------------------------------------------------------- look back

  /** Nothing already seen is this name or one of its directories. */
  predicate Unseen(seen: set<string>, name: string) {
    name !in seen && forall i :: 0 <= i < |name| && name[i] == '/' ==> name[..i] !in seen
  }

  method LookUp(seen: set<string>, name: string) returns (ok: bool)
    ensures ok <==> Unseen(seen, name)
  {
    if name in seen { return false; }
    var at := NextCut(name, 0);
    while at < |name|
      invariant at <= |name| && (at < |name| ==> name[at] == '/')
      invariant forall i :: 0 <= i < at && name[i] == '/' ==> name[..i] !in seen
    {
      if name[..at] in seen { return false; }
      at := NextCut(name, at + 1);
    }
    return true;
  }

  /** `a` is `b` or one of its directories. */
  predicate Covers(a: string, b: string) { a == b || (|a| < |b| && b[|a|] == '/' && b[..|a|] == a) }

  lemma {:induction false} UnseenMeans(seen: set<string>, b: string)
    ensures Unseen(seen, b) <==> forall a :: a in seen ==> !Covers(a, b)
  {
    if forall a :: a in seen ==> !Covers(a, b) {
      assert Covers(b, b);
      assert forall i :: 0 <= i < |b| && b[i] == '/' ==> Covers(b[..i], b);
    }
  }

  /** In sorted order only earlier names can be in the way. */
  lemma {:induction false} EarlierClash(a: string, b: string)
    requires Leq(a, b)
    ensures Clash(a, b) <==> Covers(a, b)
  {
    if b + "/" <= a {
      assert b <= a by { assert (b + "/")[..|b|] == b; assert a[..|b|] == b; }
      PrefixFirst(b, a);
      LeqTotal(a, b);
    }
    if |a| < |b| && b[|a|] == '/' && b[..|a|] == a { assert a + "/" == b[..|a| + 1]; }
    if a + "/" <= b { assert (a + "/")[|a|] == '/' && b[..|a|] == (a + "/")[..|a|] == a; }
  }

  lemma {:induction false} UnseenIsApart(s: seq<string>, n: nat, seen: set<string>)
    requires n < |s| && Sorted(Self, s) && forall x :: x in seen <==> x in s[..n]
    ensures Unseen(seen, s[n]) <==> Pairwise.WithAll(Apart, multiset(s[..n]), s[n])
  {
    UnseenMeans(seen, s[n]);
    forall a | a in s[..n] ensures Clash(a, s[n]) <==> Covers(a, s[n]) {
      var i :| 0 <= i < n && s[i] == a;
      EarlierClash(s[i], s[n]);
    }
    assert forall a :: a in multiset(s[..n]) <==> a in seen;
  }

  method LookBack(names: seq<string>) returns (ok: bool)
    requires Sorted(Self, names)
    ensures ok <==> Pairwise.Holds(Apart, names)
  {
    var seen: set<string> := {};
    for i := 0 to |names|
      invariant forall x :: x in seen <==> x in names[..i]
      invariant Pairwise.Holds(Apart, names[..i])
    {
      assert names[..i + 1] == names[..i] + [names[i]];
      UnseenIsApart(names, i, seen);
      Pairwise.HoldsExtends(Apart, names[..i], names[i]);
      ok := LookUp(seen, names[i]);
      if !ok {
        assert forall k :: 0 <= k <= i ==> names[..i + 1][k] == names[k];
        return;
      }
      seen := seen + {names[i]};
    }
    assert names[..|names|] == names;
    return true;
  }

  /** The fast check accepts exactly the lists of safe printable paths of which no two overlap. */
  method CollisionFree(paths: seq<string>) returns (ok: bool)
    ensures ok <==> (forall i :: 0 <= i < |paths| ==> SafeArtifactPath(paths[i]) && Printable(paths[i]))
                    && Pairwise.Holds(Disjoint, paths)
  {
    var names: seq<string> := [];
    for i := 0 to |paths|
      invariant |names| == i
      invariant forall k :: 0 <= k < i ==> SafeArtifactPath(paths[k]) && Printable(paths[k]) && names[k] == Fold(paths[k])
    {
      if !SafeArtifactPath(paths[i]) || !Printable(paths[i]) { return false; }
      names := names + [Fold(paths[i])];
    }
    var sorted := Sort(Self, names);
    assert Pairwise.Symmetric(Apart);
    Pairwise.Permuted(Apart, sorted, names);
    assert Pairwise.Holds(Apart, names) <==> Pairwise.Holds(Disjoint, paths);
    ok := LookBack(sorted);
  }
}
