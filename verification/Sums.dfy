/** Sums over lists, whatever the order. */
module Sums {
  function Sum<T>(size: T -> nat, l: seq<T>): nat {
    if l == [] then 0 else Sum(size, l[..|l| - 1]) + size(l[|l| - 1])
  }

  lemma {:induction false} SumConcat<T>(size: T -> nat, a: seq<T>, b: seq<T>)
    ensures Sum(size, a + b) == Sum(size, a) + Sum(size, b)
  {
    if b == [] {
      assert a + b == a;
    } else {
      SumConcat(size, a, b[..|b| - 1]);
      assert (a + b)[..|a + b| - 1] == a + b[..|b| - 1];
    }
  }

  lemma {:induction false} SumAround<T>(size: T -> nat, left: seq<T>, x: T, right: seq<T>)
    ensures Sum(size, left + [x] + right) == Sum(size, left + right) + size(x)
  {
    SumConcat(size, left + [x], right);
    SumConcat(size, left, right);
    assert (left + [x])[..|left|] == left;
  }

  lemma {:induction false} SameRest<T>(a: multiset<T>, b: multiset<T>, x: T)
    requires a + multiset{x} == b + multiset{x}
    ensures a == b
  {
    assert (a + multiset{x}) - multiset{x} == a;
  }

  /** The last element of one arrangement, taken out of another. */
  lemma {:induction false} TakeOut<T>(init: seq<T>, x: T, b: seq<T>) returns (i: nat)
    requires multiset(init + [x]) == multiset(b)
    ensures i < |b| && b[i] == x && b == b[..i] + [x] + b[i + 1..]
    ensures multiset(init) == multiset(b[..i] + b[i + 1..])
  {
    assert x in multiset(init + [x]);
    i :| 0 <= i < |b| && b[i] == x;
    assert b == b[..i] + [x] + b[i + 1..];
    SameRest(multiset(init), multiset(b[..i] + b[i + 1..]), x);
  }

  lemma {:induction false} SumPermuted<T>(size: T -> nat, a: seq<T>, b: seq<T>)
    requires multiset(a) == multiset(b)
    ensures Sum(size, a) == Sum(size, b)
    decreases |a|
  {
    if a == [] {
      assert b == [] by { assert |multiset(b)| == |b|; }
    } else {
      var init, x := a[..|a| - 1], a[|a| - 1];
      assert a == init + [x];
      var i := TakeOut(init, x, b);
      SumPermuted(size, init, b[..i] + b[i + 1..]);
      SumAround(size, b[..i], x, b[i + 1..]);
      assert a[..|a| - 1] == init;
    }
  }
}
