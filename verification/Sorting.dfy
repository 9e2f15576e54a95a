/** Byte order on names, and sorting records by name. */
module Sorting {
  predicate Leq(a: string, b: string) {
    a == "" || (b != "" && (a[0] < b[0] || (a[0] == b[0] && Leq(a[1..], b[1..]))))
  }

  lemma {:induction false} LeqTotal(a: string, b: string)
    ensures Leq(a, b) || Leq(b, a)
    ensures Leq(a, b) && Leq(b, a) ==> a == b
  {
    if a != "" && b != "" && a[0] == b[0] {
      LeqTotal(a[1..], b[1..]);
      assert a == [a[0]] + a[1..] && b == [b[0]] + b[1..];
    }
  }

  lemma {:induction false} LeqTransitive(a: string, b: string, c: string)
    requires Leq(a, b) && Leq(b, c)
    ensures Leq(a, c)
  {
    if a != "" && a[0] == b[0] == c[0] { LeqTransitive(a[1..], b[1..], c[1..]); }
  }

  /** A directory sorts before everything in it. */
  lemma {:induction false} PrefixFirst(a: string, b: string)
    requires a <= b
    ensures Leq(a, b)
  {
    if a != "" { PrefixFirst(a[1..], b[1..]); }
  }

  predicate Sorted<T>(key: T -> string, s: seq<T>) {
    forall i, j :: 0 <= i < j < |s| ==> Leq(key(s[i]), key(s[j]))
  }

  function Insert<T>(key: T -> string, x: T, s: seq<T>): (r: seq<T>)
    requires Sorted(key, s)
    ensures Sorted(key, r) && multiset(r) == multiset(s) + multiset{x}
  {
    if s == [] then [x]
    else if Leq(key(x), key(s[0])) then InsertFirst(key, x, s); [x] + s
    else
      var rest := Insert(key, x, s[1..]);
      InsertLater(key, x, s, rest);
      [s[0]] + rest
  }

  lemma {:induction false} InsertFirst<T>(key: T -> string, x: T, s: seq<T>)
    requires Sorted(key, s) && s != [] && Leq(key(x), key(s[0]))
    ensures Sorted(key, [x] + s)
  {
    forall j | 1 <= j < |s| ensures Leq(key(x), key(s[j])) { LeqTransitive(key(x), key(s[0]), key(s[j])); }
  }

  lemma {:induction false} InsertLater<T>(key: T -> string, x: T, s: seq<T>, rest: seq<T>)
    requires Sorted(key, s) && s != [] && !Leq(key(x), key(s[0]))
    requires Sorted(key, rest) && multiset(rest) == multiset(s[1..]) + multiset{x}
    ensures Sorted(key, [s[0]] + rest) && multiset([s[0]] + rest) == multiset(s) + multiset{x}
  {
    LeqTotal(key(x), key(s[0]));
    assert s == [s[0]] + s[1..];
    forall i | 0 <= i < |rest| ensures Leq(key(s[0]), key(rest[i])) {
      assert rest[i] in multiset(rest);
      assert rest[i] == x || rest[i] in s[1..];
    }
  }

  function Arranged<T>(key: T -> string, items: seq<T>): (r: seq<T>)
    ensures Sorted(key, r) && multiset(r) == multiset(items)
  {
    if items == [] then []
    else
      assert items == items[..|items| - 1] + [items[|items| - 1]];
      Insert(key, items[|items| - 1], Arranged(key, items[..|items| - 1]))
  }

  method Sort<T>(key: T -> string, items: seq<T>) returns (r: seq<T>)
    ensures r == Arranged(key, items)
    ensures Sorted(key, r) && multiset(r) == multiset(items)
  {
    r := [];
    for i := 0 to |items|
      invariant r == Arranged(key, items[..i])
    {
      assert items[..i + 1][..i] == items[..i];
      r := Insert(key, items[i], r);
    }
    assert items[..|items|] == items;
  }
}
