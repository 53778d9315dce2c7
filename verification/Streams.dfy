/**
 Finite streams of messages: selecting from a stream, being a subsequence of
 one, and being what "latest wins" coalescing may leave of one.
 All definitions recurse from the end, where streams grow.
 */
module Streams {

  function Filter<T(!new)>(a: seq<T>, p: T -> bool): (r: seq<T>)
    ensures forall x :: x in r <==> x in a && p(x)
  {
    if a == [] then []
    else
      var r := Filter(a[..|a| - 1], p);
      if p(a[|a| - 1]) then r + [a[|a| - 1]] else r
  }

  lemma FilterSnoc<T(!new)>(a: seq<T>, x: T, p: T -> bool)
    ensures Filter(a + [x], p) == Filter(a, p) + if p(x) then [x] else []
  {
    assert (a + [x])[..|a|] == a;
  }

  lemma {:induction false} FilterConcat<T(!new)>(a: seq<T>, b: seq<T>, p: T -> bool)
    ensures Filter(a + b, p) == Filter(a, p) + Filter(b, p)
  {
    if b == [] {
      assert a + b == a;
    } else {
      var init, x := b[..|b| - 1], b[|b| - 1];
      FilterConcat(a, init, p);
      assert a + b == (a + init) + [x] && b == init + [x];
      FilterSnoc(a + init, x, p);
      FilterSnoc(init, x, p);
    }
  }

  lemma {:induction false} FilterCongruent<T(!new)>(a: seq<T>, p: T -> bool, q: T -> bool)
    requires forall x | x in a :: p(x) == q(x)
    ensures Filter(a, p) == Filter(a, q)
  {
    if a != [] {
      FilterCongruent(a[..|a| - 1], p, q);
    }
  }

  lemma {:induction false} FilterNone<T(!new)>(a: seq<T>, p: T -> bool)
    requires forall x | x in a :: !p(x)
    ensures Filter(a, p) == []
  {
    if a != [] {
      FilterNone(a[..|a| - 1], p);
    }
  }

  ghost predicate Distinct<T(!new)>(a: seq<T>) {
    forall i, j | 0 <= i < j < |a| :: a[i] != a[j]
  }

  lemma {:induction false} FilterDistinct<T(!new)>(a: seq<T>, p: T -> bool)
    requires Distinct(a)
    ensures Distinct(Filter(a, p))
  {
    if a != [] {
      var init, x := a[..|a| - 1], a[|a| - 1];
      FilterDistinct(init, p);
      assert x !in Filter(init, p);
    }
  }

  lemma {:induction false} DistinctCount<T(!new)>(a: seq<T>, x: T)
    requires Distinct(a)
    ensures multiset(a)[x] <= 1
  {
    if a != [] {
      var init, y := a[..|a| - 1], a[|a| - 1];
      DistinctCount(init, x);
      assert a == init + [y];
      assert y !in init;
    }
  }

  ghost predicate Subsequence<T(!new)>(xs: seq<T>, ys: seq<T>) {
    || xs == []
    || (ys != []
        && (|| Subsequence(xs, ys[..|ys| - 1])
            || (xs[|xs| - 1] == ys[|ys| - 1] && Subsequence(xs[..|xs| - 1], ys[..|ys| - 1]))))
  }

  /** got may be what coalescing delivered of full: a subsequence that ends in the same message. */
  ghost predicate Coalesced<T(!new)>(full: seq<T>, got: seq<T>) {
    && Subsequence(got, full)
    && (full != [] ==> got != [] && got[|got| - 1] == full[|full| - 1])
  }

  lemma SubsequenceSkip<T(!new)>(xs: seq<T>, ys: seq<T>, y: T)
    requires Subsequence(xs, ys)
    ensures Subsequence(xs, ys + [y])
  {
    assert (ys + [y])[..|ys|] == ys;
  }

  lemma SubsequenceTake<T(!new)>(xs: seq<T>, ys: seq<T>, y: T)
    requires Subsequence(xs, ys)
    ensures Subsequence(xs + [y], ys + [y])
  {
    assert (ys + [y])[..|ys|] == ys && (xs + [y])[..|xs|] == xs;
  }

  lemma {:induction false} SubsequenceInit<T(!new)>(xs: seq<T>, x: T, ys: seq<T>)
    requires Subsequence(xs + [x], ys)
    ensures Subsequence(xs, ys)
  {
    var init := ys[..|ys| - 1];
    assert ys == init + [ys[|ys| - 1]];
    if Subsequence(xs + [x], init) {
      SubsequenceInit(xs, x, init);
    } else {
      assert (xs + [x])[..|xs|] == xs;
    }
    SubsequenceSkip(xs, init, ys[|ys| - 1]);
  }

  lemma {:induction false} SubsequenceElements<T(!new)>(xs: seq<T>, ys: seq<T>, x: T)
    requires Subsequence(xs, ys) && x in xs
    ensures x in ys
  {
    var init := ys[..|ys| - 1];
    if Subsequence(xs, init) {
      SubsequenceElements(xs, init, x);
    } else if x != xs[|xs| - 1] {
      SubsequenceElements(xs[..|xs| - 1], init, x);
    }
  }

  /** Any two messages of a stream, in order, with the last one second, are a coalescing of it. */
  lemma {:induction false} PickAndLast<T(!new)>(ys: seq<T>, i: nat)
    requires i < |ys| - 1
    ensures Coalesced(ys, [ys[i], ys[|ys| - 1]])
  {
    var init := ys[..|ys| - 1];
    PickOne(init, i);
    SubsequenceTake([ys[i]], init, ys[|ys| - 1]);
    assert init + [ys[|ys| - 1]] == ys;
    assert [ys[i]] + [ys[|ys| - 1]] == [ys[i], ys[|ys| - 1]];
  }

  lemma {:induction false} PickOne<T(!new)>(ys: seq<T>, i: nat)
    requires i < |ys|
    ensures Subsequence([ys[i]], ys)
  {
    if i < |ys| - 1 {
      PickOne(ys[..|ys| - 1], i);
    } else {
      assert [ys[i]][..0] == [];
    }
  }

  lemma LastAlone<T(!new)>(ys: seq<T>)
    requires ys != []
    ensures Coalesced(ys, [ys[|ys| - 1]])
  {
    PickOne(ys, |ys| - 1);
  }
}
