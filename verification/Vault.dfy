/** The private vault file: one line per entry, base-16 names and base-64 values. The `=` that ends
    a name also pads a value. */
module Vault {
  import opened Optional
  import opened Encodings
  import Sorting
  import opened Pairwise

  const MAX_SECRET: nat := 65_536
  const MAX_ENTRIES: nat := 4096
  const MAX_FILE: nat := 8_388_608
  const MAX_KEY: nat := 128

  type Secret = seq<Byte>
  type Entries = map<string, Secret>

  predicate Alnum(c: char) { 'a' <= c <= 'z' || 'A' <= c <= 'Z' || '0' <= c <= '9' }

  predicate ValidKey(k: string) {
    && 1 <= |k| <= MAX_KEY && Alnum(k[0])
    && forall i :: 0 <= i < |k| ==> Alnum(k[i]) || k[i] in "._:-"
  }

  predicate ValidEntry(k: string, v: Secret) { ValidKey(k) && 1 <= |v| <= MAX_SECRET }

  predicate ValidEntries(m: Entries) { forall k :: k in m ==> ValidEntry(k, m[k]) }

  function Header(installation: string): string { "COMPUTE_RELAY_VAULT=1\nINSTALLATION_ID=" + installation + "\n" }

  const NAME_PREFIX := "SECRET_"

  /** What a line without its end says. */
  function Body(k: string, v: Secret): string
    requires ValidKey(k)
  {
    NAME_PREFIX + Hex(k) + "=" + Encode(v)
  }

  function Line(k: string, v: Secret): string
    requires ValidKey(k)
  {
    Body(k, v) + "\n"
  }

  function Lines(keys: seq<string>, m: Entries): string
    requires forall i :: 0 <= i < |keys| ==> keys[i] in m && ValidKey(keys[i])
  {
    if keys == [] then "" else Line(keys[0], m[keys[0]]) + Lines(keys[1..], m)
  }

  // ---------------------------------------------------------------- reading

  function FirstIndex(s: string, c: char): (r: nat)
    ensures r <= |s| && (r < |s| ==> s[r] == c) && forall i :: 0 <= i < r ==> s[i] != c
  {
    if s == "" || s[0] == c then 0 else 1 + FirstIndex(s[1..], c)
  }

  /** A name is accepted only as the base 16 of a valid key. */
  function ParseName(name: string): (k: Option<string>)
    ensures k.Some? ==> ValidKey(k.value) && name == NAME_PREFIX + Hex(k.value)
  {
    if !(NAME_PREFIX <= name) || |name| > |NAME_PREFIX| + 2 * MAX_KEY then None else
    var key := Unhex(name[|NAME_PREFIX|..]);
    if key.None? || !ValidKey(key.value) || name[|NAME_PREFIX|..] != Hex(key.value) then None
    else
      assert name == NAME_PREFIX + name[|NAME_PREFIX|..];
      key
  }

  /** A value is accepted only as the strict base 64 of a bounded, nonempty secret. */
  function ParseValue(value: string): (v: Option<Secret>)
    ensures v.Some? ==> 1 <= |v.value| <= MAX_SECRET && value == Encode(v.value)
  {
    if |value| > EncodedLength(MAX_SECRET) then None else
    var secret := Decode(value);
    if secret.None? || secret.value == [] || |secret.value| > MAX_SECRET then None
    else
      EncodeDecode(value);
      secret
  }

  function ParseLine(line: string): (r: Option<(string, Secret)>)
    ensures r.Some? ==> ValidEntry(r.value.0, r.value.1)
  {
    var at := FirstIndex(line, '=');
    if at == |line| then None else
    var k, v := ParseName(line[..at]), ParseValue(line[at + 1..]);
    if k.Some? && v.Some? then Some((k.value, v.value)) else None
  }

  /** The entry on the first line of `text`, and the text after it. */
  function NextEntry(text: string, entries: Entries): (r: Option<(string, Secret, string)>)
    ensures r.Some? ==> |r.value.2| < |text|
  {
    var at := FirstIndex(text, '\n');
    if at == |text| || |entries| >= MAX_ENTRIES then None else
    var e := ParseLine(text[..at]);
    if e.None? || e.value.0 in entries then None else Some((e.value.0, e.value.1, text[at + 1..]))
  }

  /** The entries of `text` on top of those already read. */
  function Parse(text: string, entries: Entries): Option<Entries>
    decreases |text|
  {
    if text == "" then Some(entries) else
    var n := NextEntry(text, entries);
    if n.None? then None else Parse(n.value.2, entries[n.value.0 := n.value.1])
  }

  function ReadBack(installation: string, raw: string): Option<Entries> {
    var h := Header(installation);
    if !(h <= raw) || raw[|raw| - 1] != '\n' then None else Parse(raw[|h|..], map[])
  }

  method ReadLine(text: string, entries: Entries) returns (r: Option<(string, Secret, string)>)
    ensures r == NextEntry(text, entries)
  {
    var at := FirstIndex(text, '\n');
    if at == |text| || |entries| >= MAX_ENTRIES { return None; }
    var e := ParseLine(text[..at]);
    if e.None? || e.value.0 in entries { return None; }
    return Some((e.value.0, e.value.1, text[at + 1..]));
  }

  method DecodeLines(text: string) returns (r: Option<Entries>)
    ensures r == Parse(text, map[])
  {
    var entries: Entries := map[];
    var remaining := text;
    while remaining != ""
      invariant Parse(remaining, entries) == Parse(text, map[])
      decreases |remaining|
    {
      var n := ReadLine(remaining, entries);
      if n.None? { return None; }
      remaining := n.value.2;
      entries := entries[n.value.0 := n.value.1];
    }
    return Some(entries);
  }

  method DecodeFile(installation: string, raw: string) returns (r: Option<Entries>)
    ensures r == ReadBack(installation, raw)
  {
    var h := Header(installation);
    if !(h <= raw) || |raw| == 0 || raw[|raw| - 1] != '\n' { return None; }
    r := DecodeLines(raw[|h|..]);
  }

  // ---------------------------------------------------------------- one line

  lemma {:induction false} FirstIndexIs(s: string, c: char, at: nat)
    requires at < |s| && s[at] == c && forall i :: 0 <= i < at ==> s[i] != c
    ensures FirstIndex(s, c) == at
  {
  }

  /** The first `=` ends the name, whatever padding follows. */
  lemma {:induction false} BodyCuts(k: string, v: Secret)
    requires ValidKey(k)
    ensures var b, n := Body(k, v), |NAME_PREFIX| + 2 * |k|;
            && FirstIndex(b, '=') == n < |b|
            && b[..n] == NAME_PREFIX + Hex(k) && b[n + 1..] == Encode(v)
  {
    var b, n := Body(k, v), |NAME_PREFIX| + 2 * |k|;
    assert b[..n] == NAME_PREFIX + Hex(k);
    assert forall i :: 0 <= i < n ==> b[i] == (NAME_PREFIX + Hex(k))[i];
    FirstIndexIs(b, '=', n);
  }

  lemma {:induction false} EncodedLengthGrows(a: nat, b: nat)
    requires a <= b
    ensures EncodedLength(a) <= EncodedLength(b)
  {
  }

  lemma {:induction false} NameParses(k: string)
    requires ValidKey(k)
    ensures ParseName(NAME_PREFIX + Hex(k)) == Some(k)
  {
    UnhexHex(k);
    assert (NAME_PREFIX + Hex(k))[|NAME_PREFIX|..] == Hex(k);
  }

  lemma {:induction false} ValueParses(v: Secret)
    requires 1 <= |v| <= MAX_SECRET
    ensures ParseValue(Encode(v)) == Some(v)
  {
    DecodeEncode(v);
    EncodeLength(v);
    EncodedLengthGrows(|v|, MAX_SECRET);
  }

  lemma {:induction false} ParseBody(k: string, v: Secret)
    requires ValidEntry(k, v)
    ensures ParseLine(Body(k, v)) == Some((k, v))
  {
    BodyCuts(k, v);
    NameParses(k);
    ValueParses(v);
  }

  lemma {:induction false} JoinLine(line: string, at: nat, name: string, value: string)
    requires at < |line| && line[at] == '=' && line[..at] == name && line[at + 1..] == value
    ensures line == name + "=" + value
  {
    assert line == line[..at] + [line[at]] + line[at + 1..];
  }

  /** A line is accepted only in the one form the writer gives it. */
  lemma {:induction false} LineIsCanonical(line: string)
    requires ParseLine(line).Some?
    ensures line == Body(ParseLine(line).value.0, ParseLine(line).value.1)
  {
    var at := FirstIndex(line, '=');
    JoinLine(line, at, line[..at], line[at + 1..]);
  }

  lemma {:induction false} BodyHasNoNewline(k: string, v: Secret)
    requires ValidKey(k)
    ensures forall i :: 0 <= i < |Body(k, v)| ==> Body(k, v)[i] != '\n'
  {
  }

  lemma {:induction false} LineFirst(k: string, v: Secret, rest: string)
    requires ValidKey(k)
    ensures var text, n := Line(k, v) + rest, |Body(k, v)|;
            && n < |text| && FirstIndex(text, '\n') == n
            && text[..n] == Body(k, v) && text[n + 1..] == rest
  {
    var text, n := Line(k, v) + rest, |Body(k, v)|;
    assert text == Body(k, v) + "\n" + rest;
    BodyHasNoNewline(k, v);
    assert forall i :: 0 <= i < n ==> text[i] == Body(k, v)[i];
    FirstIndexIs(text, '\n', n);
  }

  // ---------------------------------------------------------------- whole files

  predicate Lists(keys: seq<string>, m: Entries) {
    Distinct(keys) && (forall i :: 0 <= i < |keys| ==> keys[i] in m) && (forall k :: k in m ==> k in keys)
  }

  /** One written line more. */
  lemma {:induction false} ParseStep(k: string, v: Secret, rest: string, entries: Entries)
    requires ValidEntry(k, v) && k !in entries && |entries| < MAX_ENTRIES
    ensures Parse(Line(k, v) + rest, entries) == Parse(rest, entries[k := v])
  {
    LineFirst(k, v, rest);
    ParseBody(k, v);
  }

  /** What reading `keys` adds. */
  function Added(entries: Entries, keys: seq<string>, m: Entries): Entries
    requires forall i :: 0 <= i < |keys| ==> keys[i] in m
  {
    entries + map k | k in keys :: m[k]
  }

  lemma {:induction false} AddedFirst(entries: Entries, keys: seq<string>, m: Entries)
    requires keys != [] && forall i :: 0 <= i < |keys| ==> keys[i] in m
    ensures keys[0] !in keys[1..] ==> Added(entries[keys[0] := m[keys[0]]], keys[1..], m) == Added(entries, keys, m)
  {
    assert forall j :: j in keys <==> j == keys[0] || j in keys[1..];
  }

  /** Lines written for new keys are read on top of what was read before. */
  lemma {:induction false} ParseLines(keys: seq<string>, m: Entries, entries: Entries)
    requires ValidEntries(m) && Distinct(keys) && |entries| + |keys| <= MAX_ENTRIES
    requires forall i :: 0 <= i < |keys| ==> keys[i] in m && keys[i] !in entries
    ensures Parse(Lines(keys, m), entries) == Some(Added(entries, keys, m))
    decreases |keys|
  {
    if keys == [] {
      assert Added(entries, keys, m) == entries;
    } else {
      var k, rest := keys[0], keys[1..];
      ParseStep(k, m[k], Lines(rest, m), entries);
      ParseLines(rest, m, entries[k := m[k]]);
      AddedFirst(entries, keys, m);
    }
  }

  /** The round trip: for every map of valid keys to bounded secrets within the limits, reading the
      written lines, in whatever order, gives that map back. */
  lemma {:induction false} WrittenReadsBack(installation: string, keys: seq<string>, m: Entries)
    requires ValidEntries(m) && |m| <= MAX_ENTRIES && Lists(keys, m) && |keys| == |m|
    ensures ReadBack(installation, Header(installation) + Lines(keys, m)) == Some(m)
  {
    LinesEnd(keys, m);
    HeaderFirst(installation, Lines(keys, m));
    ParseLines(keys, m, map[]);
    AddedToNothing(keys, m);
  }

  /** Behind its header a file is read line by line. */
  lemma {:induction false} HeaderFirst(installation: string, lines: string)
    requires lines != "" ==> lines[|lines| - 1] == '\n'
    ensures ReadBack(installation, Header(installation) + lines) == Parse(lines, map[])
  {
    var h, raw := Header(installation), Header(installation) + lines;
    assert h[|h| - 1] == '\n';
    assert raw[|h|..] == lines && raw[|raw| - 1] == (if lines == "" then h[|h| - 1] else lines[|lines| - 1]);
  }

  lemma {:induction false} AddedToNothing(keys: seq<string>, m: Entries)
    requires Lists(keys, m)
    ensures Added(map[], keys, m) == m
  {
  }

  lemma {:induction false} LinesEnd(keys: seq<string>, m: Entries)
    requires forall i :: 0 <= i < |keys| ==> keys[i] in m && ValidKey(keys[i])
    ensures Lines(keys, m) != "" ==> Lines(keys, m)[|Lines(keys, m)| - 1] == '\n'
    decreases |keys|
  {
    if keys != [] { LinesEnd(keys[1..], m); }
  }

  lemma {:induction false} JoinText(text: string, at: nat, body: string)
    requires at < |text| && text[at] == '\n' && text[..at] == body
    ensures text == body + "\n" + text[at + 1..]
  {
    assert text == text[..at] + [text[at]] + text[at + 1..];
  }

  /** One accepted line is a written one. */
  lemma {:induction false} ParseUnstep(text: string, entries: Entries) returns (k: string, v: Secret, rest: string)
    requires text != "" && Parse(text, entries).Some?
    ensures ValidEntry(k, v) && k !in entries && |rest| < |text|
    ensures text == Line(k, v) + rest && Parse(rest, entries[k := v]) == Parse(text, entries)
  {
    var at := FirstIndex(text, '\n');
    k, v := ParseLine(text[..at]).value.0, ParseLine(text[..at]).value.1;
    rest := text[at + 1..];
    LineIsCanonical(text[..at]);
    JoinText(text, at, Body(k, v));
  }

  /** `m` is `entries` and, besides, exactly the valid entries named by `keys`. */
  ghost predicate Grown(entries: Entries, keys: seq<string>, m: Entries) {
    && Distinct(keys) && (forall k :: k in m <==> k in entries || k in keys)
    && (forall i :: 0 <= i < |keys| ==> keys[i] !in entries && keys[i] in m && ValidEntry(keys[i], m[keys[i]]))
    && (forall k :: k in entries ==> k in m && m[k] == entries[k])
  }

  lemma {:induction false} GrownFirst(entries: Entries, k: string, v: Secret, rest: seq<string>, m: Entries)
    requires Grown(entries[k := v], rest, m) && k !in entries && ValidEntry(k, v)
    ensures Grown(entries, [k] + rest, m) && m[k] == v
  {
    var keys := [k] + rest;
    assert forall j :: j in keys <==> j == k || j in rest;
  }

  lemma {:induction false} LinesFirst(k: string, rest: seq<string>, m: Entries)
    requires forall i :: 0 <= i < |[k] + rest| ==> ([k] + rest)[i] in m && ValidKey(([k] + rest)[i])
    ensures k in m && ValidKey(k) && forall i :: 0 <= i < |rest| ==> rest[i] in m && ValidKey(rest[i])
    ensures Lines([k] + rest, m) == Line(k, m[k]) + Lines(rest, m)
  {
    var keys := [k] + rest;
    assert keys[0] == k && keys[1..] == rest;
    forall i | 0 <= i < |rest| ensures rest[i] in m && ValidKey(rest[i]) { assert keys[i + 1] == rest[i]; }
  }

  /** And nothing else reads: an accepted text is the writer's own, up to the order of its lines. */
  lemma {:induction false} ParsedIsWritten(text: string, entries: Entries) returns (keys: seq<string>)
    requires Parse(text, entries).Some?
    ensures Grown(entries, keys, Parse(text, entries).value)
    ensures text == Lines(keys, Parse(text, entries).value)
    decreases |text|
  {
    if text == "" {
      keys := [];
    } else {
      var k, v, tail := ParseUnstep(text, entries);
      var rest := ParsedIsWritten(tail, entries[k := v]);
      var m := Parse(text, entries).value;
      GrownFirst(entries, k, v, rest, m);
      LinesFirst(k, rest, m);
      keys := [k] + rest;
    }
  }

  // ---------------------------------------------------------------- writing

  function LineLength(k: string, v: Secret): nat { |NAME_PREFIX| + 2 * |k| + 1 + EncodedLength(|v|) + 1 }

  function LinesLength(keys: seq<string>, m: Entries): nat
    requires forall i :: 0 <= i < |keys| ==> keys[i] in m
  {
    if keys == [] then 0 else LineLength(keys[0], m[keys[0]]) + LinesLength(keys[1..], m)
  }

  lemma {:induction false} LinesHaveLength(keys: seq<string>, m: Entries)
    requires forall i :: 0 <= i < |keys| ==> keys[i] in m && ValidKey(keys[i])
    ensures |Lines(keys, m)| == LinesLength(keys, m)
    decreases |keys|
  {
    if keys != [] {
      EncodeLength(m[keys[0]]);
      LinesHaveLength(keys[1..], m);
    }
  }

  function Same(s: string): string { s }

  method KeysOf(m: Entries) returns (keys: seq<string>)
    ensures Lists(keys, m) && |keys| == |m|
  {
    keys := [];
    var rest := m;
    while |rest| > 0
      invariant Distinct(keys) && |keys| + |rest| == |m|
      invariant forall k :: k in m <==> k in rest || k in keys
      invariant forall k :: k in rest ==> k !in keys
    {
      var k :| k in rest;
      rest := rest - {k};
      keys := keys + [k];
    }
  }

  lemma {:induction false} SortedStillLists(keys: seq<string>, sorted: seq<string>, m: Entries)
    requires Lists(keys, m) && multiset(sorted) == multiset(keys)
    ensures Lists(sorted, m) && |sorted| == |keys|
  {
    assert |sorted| == |multiset(sorted)| && |keys| == |multiset(keys)|;
    forall k ensures k in sorted <==> k in keys {
      assert k in sorted <==> k in multiset(sorted);
      assert k in keys <==> k in multiset(keys);
    }
    forall i | 0 <= i < |sorted| ensures sorted[i] in m {
      assert sorted[i] in keys;
    }
    forall i, j | 0 <= i < j < |sorted| ensures sorted[i] != sorted[j] {
      OnceEach(keys, sorted[i]);
      if sorted[i] == sorted[j] { TwiceCounts(sorted, i, j); }
    }
  }

  lemma {:induction false} OnceEach(keys: seq<string>, k: string)
    requires Distinct(keys)
    ensures multiset(keys)[k] <= 1
  {
    if keys != [] {
      var init, last := keys[..|keys| - 1], keys[|keys| - 1];
      OnceEach(init, k);
      assert keys == init + [last];
      assert last !in init;
    }
  }

  lemma {:induction false} TwiceCounts(s: seq<string>, i: nat, j: nat)
    requires i < j < |s| && s[i] == s[j]
    ensures multiset(s)[s[i]] >= 2
  {
    assert s == s[..i] + [s[i]] + s[i + 1..j] + [s[j]] + s[j + 1..];
  }

  /** All keys of `m`, ascending. */
  predicate Ordered(keys: seq<string>, m: Entries) {
    Lists(keys, m) && |keys| == |m| && Sorting.Sorted(Same, keys)
  }

  /** The file with the entries in this order, unless it is too long. */
  function FileIn(installation: string, keys: seq<string>, m: Entries): Option<string>
    requires ValidEntries(m) && Lists(keys, m)
  {
    var raw := Header(installation) + Lines(keys, m);
    if |raw| > MAX_FILE then None else Some(raw)
  }

  /** What is to be written for `m`: its entries in ascending order of their keys, if not too many. */
  ghost predicate FileOf(installation: string, m: Entries, r: Option<string>)
    requires ValidEntries(m)
  {
    if |m| > MAX_ENTRIES then r.None?
    else exists keys :: Ordered(keys, m) && r == FileIn(installation, keys, m)
  }

  /** The least key of an ascending list comes first in every other. */
  lemma {:induction false} SameFirst(a: seq<string>, b: seq<string>)
    requires Sorting.Sorted(Same, a) && Sorting.Sorted(Same, b) && a != [] && b != []
    requires forall k :: k in a <==> k in b
    ensures a[0] == b[0]
  {
    assert a[0] in b && b[0] in a;
    var i :| 0 <= i < |b| && b[i] == a[0];
    var j :| 0 <= j < |a| && a[j] == b[0];
    assert i > 0 ==> Sorting.Leq(Same(b[0]), Same(b[i]));
    assert j > 0 ==> Sorting.Leq(Same(a[0]), Same(a[j]));
    Sorting.LeqTotal(a[0], b[0]);
  }

  lemma {:induction false} SameOrder(a: seq<string>, b: seq<string>)
    requires Sorting.Sorted(Same, a) && Sorting.Sorted(Same, b) && Distinct(a) && Distinct(b)
    requires |a| == |b| && forall k :: k in a <==> k in b
    ensures a == b
  {
    if a != [] {
      SameFirst(a, b);
      assert a == [a[0]] + a[1..] && b == [b[0]] + b[1..];
      assert a[0] !in a[1..] && b[0] !in b[1..];
      assert forall k :: k in a <==> k == a[0] || k in a[1..];
      assert forall k :: k in b <==> k == b[0] || k in b[1..];
      SameOrder(a[1..], b[1..]);
    }
  }

  /** Equal maps give equal files, byte for byte. */
  lemma {:induction false} OneFileEach(installation: string, m: Entries, r: Option<string>, again: Option<string>)
    requires ValidEntries(m) && FileOf(installation, m, r) && FileOf(installation, m, again)
    ensures r == again
  {
    if |m| <= MAX_ENTRIES {
      var a :| Ordered(a, m) && r == FileIn(installation, a, m);
      var b :| Ordered(b, m) && again == FileIn(installation, b, m);
      SameOrder(a, b);
    }
  }

  /** The file the vault replaces its old one with: refused exactly past a limit, in ascending key
      order, and read back exactly. */
  method EncodeFile(installation: string, m: Entries) returns (r: Option<string>)
    requires ValidEntries(m)
    ensures FileOf(installation, m, r)
    ensures r.Some? ==> ReadBack(installation, r.value) == Some(m)
  {
    if |m| > MAX_ENTRIES { return None; }
    var unsorted := KeysOf(m);
    var keys := Sorting.Sort(Same, unsorted);
    SortedStillLists(unsorted, keys, m);
    assert Ordered(keys, m);
    var size := |Header(installation)| + LinesLength(keys, m);
    LinesHaveLength(keys, m);
    if size > MAX_FILE { return None; }
    var lines := WriteLines(keys, m);
    WrittenReadsBack(installation, keys, m);
    return Some(Header(installation) + lines);
  }

  lemma {:induction false} LinesAt(keys: seq<string>, m: Entries, i: nat, raw: string)
    requires i < |keys| && forall n :: 0 <= n < |keys| ==> keys[n] in m && ValidKey(keys[n])
    ensures raw + Lines(keys[i..], m) == raw + Line(keys[i], m[keys[i]]) + Lines(keys[i + 1..], m)
  {
    assert keys[i..][1..] == keys[i + 1..];
  }

  method WriteLines(keys: seq<string>, m: Entries) returns (raw: string)
    requires forall i :: 0 <= i < |keys| ==> keys[i] in m && ValidKey(keys[i])
    ensures raw == Lines(keys, m)
  {
    raw := "";
    for i := 0 to |keys|
      invariant raw + Lines(keys[i..], m) == Lines(keys, m)
    {
      var k := keys[i];
      LinesAt(keys, m, i, raw);
      raw := raw + Line(k, m[k]);
    }
  }
}
