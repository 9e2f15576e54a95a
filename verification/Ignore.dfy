/** Ignore rules over path components. `glob` is the shell pattern match of one component. */
module Ignore {
  import opened Names

  type Glob = (string, string) -> bool

  const ANY := "**"

  /** The meaning of a pattern: `**` stands for any number of whole components. */
  predicate Matches(glob: Glob, pattern: seq<string>, parts: seq<string>)
    decreases |pattern| + |parts|
  {
    if pattern == [] then parts == []
    else if pattern[0] == ANY then
      Matches(glob, pattern[1..], parts) || (parts != [] && Matches(glob, pattern, parts[1..]))
    else
      parts != [] && glob(pattern[0], parts[0]) && Matches(glob, pattern[1..], parts[1..])
  }

  predicate MatchesSomePrefix(glob: Glob, pattern: seq<string>, parts: seq<string>) {
    exists k :: 0 <= k <= |parts| && Matches(glob, pattern, parts[..k])
  }

  /** A match of a longer pattern splits the components in two. */
  predicate Splits(glob: Glob, p: seq<string>, q: seq<string>, parts: seq<string>) {
    exists k :: 0 <= k <= |parts| && Matches(glob, p, parts[..k]) && Matches(glob, q, parts[k..])
  }

  lemma {:induction false} SplitsAt(glob: Glob, p: seq<string>, q: seq<string>, parts: seq<string>, k: nat)
    requires k <= |parts| && Matches(glob, p, parts[..k]) && Matches(glob, q, parts[k..])
    ensures Splits(glob, p, q, parts)
  {
  }

  lemma {:induction false} AppendSplits(glob: Glob, p: seq<string>, q: seq<string>, parts: seq<string>)
    requires Matches(glob, p + q, parts)
    ensures Splits(glob, p, q, parts)
    decreases |p| + |parts|
  {
    if p == [] {
      assert p + q == q && parts[0..] == parts;
      SplitsAt(glob, p, q, parts, 0);
    } else {
      assert (p + q)[1..] == p[1..] + q;
      if p[0] == ANY && Matches(glob, p[1..] + q, parts) {
        AppendSplits(glob, p[1..], q, parts);
        var k :| 0 <= k <= |parts| && Matches(glob, p[1..], parts[..k]) && Matches(glob, q, parts[k..]);
        SplitsAt(glob, p, q, parts, k);
      } else {
        var rest := if p[0] == ANY then p else p[1..];
        AppendSplits(glob, rest, q, parts[1..]);
        var k :| 0 <= k <= |parts[1..]| && Matches(glob, rest, parts[1..][..k]) && Matches(glob, q, parts[1..][k..]);
        assert parts[..k + 1][1..] == parts[1..][..k] && parts[1..][k..] == parts[k + 1..];
        SplitsAt(glob, p, q, parts, k + 1);
      }
    }
  }

  lemma {:induction false} SplitAppends(glob: Glob, p: seq<string>, q: seq<string>, parts: seq<string>, k: nat)
    requires k <= |parts| && Matches(glob, p, parts[..k]) && Matches(glob, q, parts[k..])
    ensures Matches(glob, p + q, parts)
    decreases |p| + k
  {
    if p == [] {
      assert p + q == q && parts[0..] == parts;
    } else {
      assert (p + q)[1..] == p[1..] + q;
      if p[0] == ANY && Matches(glob, p[1..], parts[..k]) {
        SplitAppends(glob, p[1..], q, parts, k);
      } else {
        assert parts[..k][1..] == parts[1..][..k - 1] && parts[k..] == parts[1..][k - 1..];
        SplitAppends(glob, if p[0] == ANY then p else p[1..], q, parts[1..], k - 1);
      }
    }
  }

  lemma {:induction false} AnyMatchesAll(glob: Glob, parts: seq<string>)
    ensures Matches(glob, [ANY], parts)
  {
    if parts != [] { AnyMatchesAll(glob, parts[1..]); }
  }

  lemma {:induction false} OneMatchesOne(glob: Glob, t: string, parts: seq<string>)
    requires t != ANY
    ensures Matches(glob, [t], parts) <==> |parts| == 1 && glob(t, parts[0])
  {
    assert [t][1..] == [];
    if parts != [] { assert Matches(glob, [t][1..], parts[1..]) <==> parts[1..] == []; }
  }

  /** One more `**`: some shorter stretch already matched. */
  lemma {:induction false} AppendAny(glob: Glob, p: seq<string>, parts: seq<string>)
    ensures Matches(glob, p + [ANY], parts) <==> MatchesSomePrefix(glob, p, parts)
  {
    if Matches(glob, p + [ANY], parts) { AppendSplits(glob, p, [ANY], parts); }
    if MatchesSomePrefix(glob, p, parts) {
      var k :| 0 <= k <= |parts| && Matches(glob, p, parts[..k]);
      AnyMatchesAll(glob, parts[k..]);
      SplitAppends(glob, p, [ANY], parts, k);
    }
  }

  /** One more ordinary component: it takes exactly the last one. */
  lemma {:induction false} AppendOne(glob: Glob, p: seq<string>, t: string, parts: seq<string>)
    requires t != ANY
    ensures Matches(glob, p + [t], parts) <==>
              parts != [] && Matches(glob, p, parts[..|parts| - 1]) && glob(t, parts[|parts| - 1])
  {
    if Matches(glob, p + [t], parts) {
      AppendSplits(glob, p, [t], parts);
      var k :| 0 <= k <= |parts| && Matches(glob, p, parts[..k]) && Matches(glob, [t], parts[k..]);
      OneMatchesOne(glob, t, parts[k..]);
    }
    if parts != [] && Matches(glob, p, parts[..|parts| - 1]) && glob(t, parts[|parts| - 1]) {
      OneMatchesOne(glob, t, parts[|parts| - 1..]);
      SplitAppends(glob, p, [t], parts, |parts| - 1);
    }
  }

  // ---------------------------------------------------------------- the table

  /** Entry `j` of the row for a pattern: does it match the first `j` components? */
  predicate Row(glob: Glob, pattern: seq<string>, parts: seq<string>, row: seq<bool>) {
    |row| == |parts| + 1 && forall j :: 0 <= j <= |parts| ==> row[j] == Matches(glob, pattern, parts[..j])
  }

  method NextRow(glob: Glob, ghost done: seq<string>, token: string, parts: seq<string>, dp: array<bool>)
    returns (next: array<bool>)
    requires Row(glob, done, parts, dp[..])
    ensures fresh(next) && Row(glob, done + [token], parts, next[..])
  {
    next := new bool[|parts| + 1];
    if token == ANY {
      next[0] := dp[0];
      AppendAny(glob, done, parts[..0]);
      assert dp[0] == dp[..][0];
      assert next[0] == Matches(glob, done + [token], parts[..0]) by {
        assert parts[..0][..0] == parts[..0];
        assert MatchesSomePrefix(glob, done, parts[..0]) <==> Matches(glob, done, parts[..0]);
      }
      for j := 1 to |parts| + 1
        invariant forall i :: 0 <= i < j ==> next[i] == Matches(glob, done + [token], parts[..i])
      {
        next[j] := dp[j] || next[j - 1];
        assert dp[j] == dp[..][j];
        AnyGrows(glob, done, parts, j);
      }
    } else {
      next[0] := false;
      AppendOne(glob, done, token, parts[..0]);
      for j := 1 to |parts| + 1
        invariant forall i :: 0 <= i < j ==> next[i] == Matches(glob, done + [token], parts[..i])
      {
        next[j] := dp[j - 1] && glob(token, parts[j - 1]);
        assert dp[j - 1] == dp[..][j - 1];
        AppendOne(glob, done, token, parts[..j]);
        assert parts[..j][..j - 1] == parts[..j - 1];
      }
    }
  }

  lemma {:induction false} AnyGrows(glob: Glob, p: seq<string>, parts: seq<string>, j: nat)
    requires 1 <= j <= |parts|
    ensures Matches(glob, p + [ANY], parts[..j]) <==> Matches(glob, p, parts[..j]) || Matches(glob, p + [ANY], parts[..j - 1])
  {
    AppendAny(glob, p, parts[..j]);
    AppendAny(glob, p, parts[..j - 1]);
    forall k | 0 <= k <= j ensures parts[..j][..k] == parts[..k] && (k < j ==> parts[..j - 1][..k] == parts[..k]) { }
    if MatchesSomePrefix(glob, p, parts[..j]) {
      var k :| 0 <= k <= j && Matches(glob, p, parts[..j][..k]);
      if k < j { assert Matches(glob, p, parts[..j - 1][..k]); }
    }
    if MatchesSomePrefix(glob, p, parts[..j - 1]) {
      var k :| 0 <= k <= j - 1 && Matches(glob, p, parts[..j - 1][..k]);
      assert Matches(glob, p, parts[..j][..k]);
    }
    if Matches(glob, p, parts[..j]) { assert parts[..j][..j] == parts[..j]; }
  }

  /** The table decides exactly whether the whole pattern matches some prefix of the components. */
  method MatchParts(glob: Glob, pattern: seq<string>, parts: seq<string>) returns (found: bool)
    ensures found <==> MatchesSomePrefix(glob, pattern, parts)
  {
    var dp := new bool[|parts| + 1](i => i == 0);
    assert Row(glob, [], parts, dp[..]);
    for i := 0 to |pattern|
      invariant Row(glob, pattern[..i], parts, dp[..])
    {
      assert pattern[..i + 1] == pattern[..i] + [pattern[i]];
      dp := NextRow(glob, pattern[..i], pattern[i], parts, dp);
    }
    assert pattern[..|pattern|] == pattern;
    for j := 0 to dp.Length
      invariant forall k :: 0 <= k < j ==> !dp[..][k]
    {
      assert dp[j] == dp[..][j];
      if dp[j] { return true; }
    }
    return false;
  }

  // ---------------------------------------------------------------- exclusion

  predicate RuleExcludes(glob: Glob, rule: string, parts: seq<string>) {
    if '/' !in rule then exists i :: 0 <= i < |parts| && glob(rule, parts[i])
    else MatchesSomePrefix(glob, Split(rule), parts)
  }

  /** What a project leaves out: private names, ignored names, and the host's own directories. */
  datatype Policy = Policy(glob: Glob, rules: seq<string>, hostDirs: seq<string>)

  predicate Under(name: string, dir: string) {
    dir == "." || Fold(name) == Fold(dir) || Fold(dir) + "/" <= Fold(name)
  }

  predicate RulesExclude(p: Policy, name: string) {
    DefaultExcluded(name) || exists i :: 0 <= i < |p.rules| && RuleExcludes(p.glob, p.rules[i], Split(name))
  }

  predicate Excluded(p: Policy, name: string) {
    RulesExclude(p, name) || exists i :: 0 <= i < |p.hostDirs| && Under(name, p.hostDirs[i])
  }

  method Excludes(p: Policy, name: string) returns (r: bool)
    ensures r <==> RulesExclude(p, name)
  {
    if DefaultExcluded(name) { return true; }
    var parts := Split(name);
    for i := 0 to |p.rules|
      invariant forall k :: 0 <= k < i ==> !RuleExcludes(p.glob, p.rules[k], parts)
    {
      var rule := p.rules[i];
      if '/' !in rule {
        for j := 0 to |parts|
          invariant forall k :: 0 <= k < j ==> !p.glob(rule, parts[k])
        {
          if p.glob(rule, parts[j]) { return true; }
        }
      } else {
        var matched := MatchParts(p.glob, Split(rule), parts);
        if matched { return true; }
      }
    }
    return false;
  }

  method IsExcluded(p: Policy, name: string) returns (r: bool)
    ensures r <==> Excluded(p, name)
  {
    r := Excludes(p, name);
    if r { return; }
    for i := 0 to |p.hostDirs|
      invariant forall k :: 0 <= k < i ==> !Under(name, p.hostDirs[k])
    {
      if Under(name, p.hostDirs[i]) { return true; }
    }
  }

  lemma {:induction false} RuleInherited(glob: Glob, rule: string, parts: seq<string>, more: seq<string>)
    requires RuleExcludes(glob, rule, parts)
    ensures RuleExcludes(glob, rule, parts + more)
  {
    if '/' !in rule {
      var i :| 0 <= i < |parts| && glob(rule, parts[i]);
      assert glob(rule, (parts + more)[i]);
    } else {
      var k :| 0 <= k <= |parts| && Matches(glob, Split(rule), parts[..k]);
      assert (parts + more)[..k] == parts[..k];
    }
  }

  lemma {:induction false} UnderInherited(name: string, rest: string, dir: string)
    requires Under(name, dir)
    ensures Under(name + "/" + rest, dir)
  {
    var below := name + "/" + rest;
    var n := |Fold(dir)| + 1;
    if dir != "." {
      assert Fold(name) == Fold(dir) ==> Fold(below)[..n] == Fold(dir) + "/";
      assert Fold(dir) + "/" <= Fold(name) ==> Fold(below)[..n] == Fold(name)[..n] == Fold(dir) + "/";
    }
  }

  /** Whatever excludes a directory excludes everything below it, so pruning loses nothing. */
  lemma {:induction false} ExclusionIsInherited(p: Policy, dir: string, rest: string)
    requires Excluded(p, dir)
    ensures Excluded(p, dir + "/" + rest)
  {
    var below := dir + "/" + rest;
    SplitBelow(dir, rest);
    if DefaultExcluded(dir) {
      var i :| 0 <= i < |Split(dir)| && PrivateComponent(Split(dir)[i]);
      assert PrivateComponent(Split(below)[i]);
    } else if RulesExclude(p, dir) {
      var i :| 0 <= i < |p.rules| && RuleExcludes(p.glob, p.rules[i], Split(dir));
      RuleInherited(p.glob, p.rules[i], Split(dir), Split(rest));
    } else {
      var i :| 0 <= i < |p.hostDirs| && Under(dir, p.hostDirs[i]);
      UnderInherited(dir, rest, p.hostDirs[i]);
    }
  }
}
