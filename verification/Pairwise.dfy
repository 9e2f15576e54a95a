/** A symmetric, irreflexive relation between all members of a list, whatever their order. */
module Pairwise {
  predicate Distinct<T(==)>(l: seq<T>) { forall i, j :: 0 <= i < j < |l| ==> l[i] != l[j] }

  predicate Holds<T>(r: (T, T) -> bool, l: seq<T>) {
    forall i, j :: 0 <= i < j < |l| ==> r(l[i], l[j])
  }

  ghost predicate Symmetric<T(!new)>(r: (T, T) -> bool) {
    && (forall a :: !r(a, a))
    && (forall a, b :: r(a, b) <==> r(b, a))
  }

  ghost predicate OfBag<T(!new)>(r: (T, T) -> bool, m: multiset<T>) {
    && (forall a :: a in m ==> m[a] == 1)
    && (forall a, b :: a in m && b in m && a != b ==> r(a, b))
  }

  ghost predicate WithAll<T(!new)>(r: (T, T) -> bool, m: multiset<T>, x: T) { forall a :: a in m ==> r(a, x) }

  lemma {:induction false} HoldsExtends<T(!new)>(r: (T, T) -> bool, init: seq<T>, last: T)
    ensures Holds(r, init + [last]) <==> Holds(r, init) && WithAll(r, multiset(init), last)
  {
    var l := init + [last];
    if Holds(r, l) {
      forall i, j | 0 <= i < j < |init| ensures r(init[i], init[j]) { assert r(l[i], l[j]); }
      forall a | a in multiset(init) ensures r(a, last) {
        var i :| 0 <= i < |init| && init[i] == a;
        assert r(l[i], l[|init|]);
      }
    }
    if Holds(r, init) && WithAll(r, multiset(init), last) {
      forall i, j | 0 <= i < j < |l| ensures r(l[i], l[j]) { assert l[i] in multiset(init); }
    }
  }

  lemma {:induction false} BagExtends<T(!new)>(r: (T, T) -> bool, m: multiset<T>, x: T)
    requires Symmetric(r)
    ensures OfBag(r, m + multiset{x}) <==> OfBag(r, m) && WithAll(r, m, x)
  {
    var n := m + multiset{x};
    if OfBag(r, n) {
      assert x !in m by { assert n[x] == 1; }
      forall a | a in m ensures m[a] == 1 && r(a, x) { assert a in n && n[a] == 1; }
    }
    if OfBag(r, m) && WithAll(r, m, x) {
      assert x !in m;
    }
  }

  lemma {:induction false} AsBag<T(!new)>(r: (T, T) -> bool, l: seq<T>)
    requires Symmetric(r)
    ensures Holds(r, l) <==> OfBag(r, multiset(l))
  {
    if l != [] {
      var init, last := l[..|l| - 1], l[|l| - 1];
      assert l == init + [last];
      AsBag(r, init);
      HoldsExtends(r, init, last);
      BagExtends(r, multiset(init), last);
    }
  }

  lemma {:induction false} Permuted<T(!new)>(r: (T, T) -> bool, l: seq<T>, m: seq<T>)
    requires Symmetric(r) && multiset(l) == multiset(m)
    ensures Holds(r, l) <==> Holds(r, m)
  {
    AsBag(r, l);
    AsBag(r, m);
  }
}
