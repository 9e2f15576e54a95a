/** Relative names as strings: cutting at slashes, ASCII case folding, and the portable subsets. */
module Names {
  function Lower(c: char): char { if 'A' <= c <= 'Z' then c + (32 as char) else c }

  function Fold(s: string): (r: string)
    ensures |r| == |s| && forall i :: 0 <= i < |s| ==> r[i] == Lower(s[i])
  {
    if s == "" then "" else [Lower(s[0])] + Fold(s[1..])
  }

  /** The end of the component at or after `from`. */
  function NextCut(s: string, from: nat): (r: nat)
    requires from <= |s|
    ensures from <= r <= |s| && (r < |s| ==> s[r] == '/')
    ensures forall i :: from <= i < r ==> s[i] != '/'
    decreases |s| - from
  {
    if from == |s| || s[from] == '/' then from else NextCut(s, from + 1)
  }

  function Split(s: string): (parts: seq<string>)
    ensures parts != []
    decreases |s|
  {
    var at := NextCut(s, 0);
    if at == |s| then [s] else [s[..at]] + Split(s[at + 1..])
  }

  lemma {:induction false} SplitFirst(s: string, head: string, tail: string)
    requires s == head + "/" + tail && '/' !in head
    ensures Split(s) == [head] + Split(tail)
  {
    assert NextCut(s, 0) == |head| by {
      assert s[|head|] == '/';
      assert forall i :: 0 <= i < |head| ==> s[i] == head[i];
    }
    assert s[..|head|] == head && s[|head| + 1..] == tail;
  }

  /** A name below a directory has the directory's components first. */
  lemma {:induction false} SplitBelow(dir: string, rest: string)
    ensures Split(dir + "/" + rest) == Split(dir) + Split(rest)
    decreases |dir|
  {
    var at := NextCut(dir, 0);
    if at == |dir| {
      SplitFirst(dir + "/" + rest, dir, rest);
    } else {
      var head, tail := dir[..at], dir[at + 1..];
      assert dir == head + "/" + tail;
      SplitFirst(dir, head, tail);
      assert dir + "/" + rest == head + "/" + (tail + "/" + rest);
      SplitFirst(dir + "/" + rest, head, tail + "/" + rest);
      SplitBelow(tail, rest);
    }
  }

  predicate Printable(s: string) { forall i :: 0 <= i < |s| ==> ' ' <= s[i] <= '~' }

  predicate DotComponent(part: string) { part == "" || part == "." || part == ".." }

  /** A remote artifact path that no host interprets. */
  predicate SafeArtifactPath(s: string) {
    && 0 < |s| <= 1024 && s[0] != '/'
    && (forall i :: 0 <= i < |s| ==> s[i] != '\\' && s[i] != ':' && s[i] >= ' ' && s[i] != 127 as char)
    && (forall i :: 0 <= i < |Split(s)| ==> !DotComponent(Split(s)[i]))
  }

  function Upper(s: string): (r: string)
    ensures |r| == |s|
  {
    if s == "" then "" else [if 'a' <= s[0] <= 'z' then s[0] - (32 as char) else s[0]] + Upper(s[1..])
  }

  function Stem(part: string): (r: string)
    ensures r <= part
  {
    if part == "" || part[0] == '.' then "" else [part[0]] + Stem(part[1..])
  }

  predicate Reserved(base: string) {
    || base in {"CON", "PRN", "AUX", "NUL", "CONIN$", "CONOUT$"}
    || (|base| == 4 && base[..3] in {"COM", "LPT"} && '0' <= base[3] <= '9')
  }

  /** The portable ASCII subset; a bare dot names the root itself. */
  predicate ValidPath(s: string) {
    || s == "."
    || (&& 0 < |s| <= 1024
        && (forall i :: 0 <= i < |s| ==> ' ' <= s[i] < 127 as char && s[i] !in "\\:*?\"<>|")
        && (forall i :: 0 <= i < |Split(s)| ==> var part := Split(s)[i];
              && !DotComponent(part) && |part| <= 100
              && part[|part| - 1] != ' ' && part[|part| - 1] != '.'
              && !Reserved(Upper(Stem(part)))))
  }

  const PRIVATE_NAMES: set<string> :=
    {".git", ".hg", ".svn", ".ssh", ".aws", ".azure", ".kaggle", ".gnupg", ".config", ".cache", ".venv", "venv",
     "node_modules", "__pycache__", ".pytest_cache", ".mypy_cache", ".idea", ".vscode", ".ds_store", "dist", "build",
     "target", ".compute-relay", ".compute-connector", ".computeignore", "kaggle.json", "access_token", "credentials",
     "credentials.json", "id_rsa", "id_ed25519", ".netrc", ".npmrc", ".pypirc"}

  predicate HasSuffix(s: string, t: string) { |t| <= |s| && s[|s| - |t|..] == t }

  predicate PrivateComponent(part: string) {
    var p := Fold(part);
    p in PRIVATE_NAMES || ".env" <= p || HasSuffix(p, ".pem") || HasSuffix(p, ".key") || HasSuffix(p, ".pyc")
  }

  predicate DefaultExcluded(s: string) {
    exists i :: 0 <= i < |Split(s)| && PrivateComponent(Split(s)[i])
  }
}
