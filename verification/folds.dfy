/**
 * The list primitives the dashboard is built from: `reduce` with `+`,
 * `filter` on a key, `findIndex`, and the facts about them that every
 * page relies on (sums split over concatenation and ignore order).
 */
module Folds {

  /** `s.reduce((acc, x) => acc + f(x), 0)`, folded left to right. */
  function Sum<T>(s: seq<T>, f: T -> real): real
    decreases |s|
  {
    if |s| == 0 then 0.0 else Sum(s[..|s| - 1], f) + f(s[|s| - 1])
  }

  /** `s.filter(x => key(x) === k)`: the records whose key is `k`, in order. */
  function Select<T>(s: seq<T>, key: T -> int, k: int): (r: seq<T>)
    ensures |r| <= |s|
    ensures forall x :: x in r ==> x in s && key(x) == k
    ensures forall x :: x in s && key(x) == k ==> x in r
    decreases |s|
  {
    if |s| == 0 then []
    else
      var last := s[|s| - 1];
      Select(s[..|s| - 1], key, k) + (if key(last) == k then [last] else [])
  }

  /** `s.findIndex(p)`: the first index whose element satisfies `p`, or -1. */
  function FindIndex<T>(s: seq<T>, p: T -> bool): (r: int)
    ensures -1 <= r < |s|
    ensures r == -1 <==> forall i :: 0 <= i < |s| ==> !p(s[i])
    ensures 0 <= r ==> p(s[r]) && forall i :: 0 <= i < r ==> !p(s[i])
    decreases |s|
  {
    if |s| == 0 then -1
    else if p(s[0]) then 0
    else
      var r := FindIndex(s[1..], p);
      if r == -1 then -1 else r + 1
  }

  /** `s.indexOf(x)`: the first position of `x`, or -1. */
  function IndexOf<T(==)>(s: seq<T>, x: T): (r: int)
    ensures -1 <= r < |s|
    ensures r == -1 <==> x !in s
    ensures 0 <= r ==> s[r] == x && forall i :: 0 <= i < r ==> s[i] != x
  {
    FindIndex(s, (y: T) => y == x)
  }

  /** Appending an element moves no first position that already existed. */
  lemma IndexOfSnoc<T>(s: seq<T>, x: T, y: T)
    ensures IndexOf(s + [x], y) == if y in s then IndexOf(s, y) else if x == y then |s| else -1
  {
    var t := s + [x];
    assert forall i :: 0 <= i < |s| ==> t[i] == s[i];
    if y in s {
      var i := IndexOf(s, y);
      assert t[i] == y;
    } else if x == y {
      assert t[|s|] == y;
    }
  }

  /** No value occurs twice. */
  predicate Unique<T(==)>(s: seq<T>) {
    forall i, j :: 0 <= i < j < |s| ==> s[i] != s[j]
  }

  lemma {:induction false} SumAppend<T>(a: seq<T>, b: seq<T>, f: T -> real)
    ensures Sum(a + b, f) == Sum(a, f) + Sum(b, f)
    decreases |b|
  {
    if |b| == 0 {
      assert a + b == a;
    } else {
      var b' := b[..|b| - 1];
      assert (a + b)[..|a + b| - 1] == a + b';
      assert (a + b)[|a + b| - 1] == b[|b| - 1];
      SumAppend(a, b', f);
    }
  }

  lemma {:induction false} SelectAppend<T>(a: seq<T>, b: seq<T>, key: T -> int, k: int)
    ensures Select(a + b, key, k) == Select(a, key, k) + Select(b, key, k)
    decreases |b|
  {
    if |b| == 0 {
      assert a + b == a;
    } else {
      var b', last := b[..|b| - 1], b[|b| - 1];
      var tail := if key(last) == k then [last] else [];
      assert (a + b)[..|a + b| - 1] == a + b';
      assert (a + b)[|a + b| - 1] == last;
      assert Select(a + b, key, k) == Select(a + b', key, k) + tail;
      assert Select(b, key, k) == Select(b', key, k) + tail;
      SelectAppend(a, b', key, k);
    }
  }

  /** No record has key `k`: nothing is selected. */
  lemma {:induction false} SelectNone<T>(s: seq<T>, key: T -> int, k: int)
    requires forall x :: x in s ==> key(x) != k
    ensures Select(s, key, k) == []
    decreases |s|
  {
    if |s| > 0 {
      SelectNone(s[..|s| - 1], key, k);
    }
  }

  /** A record with another key, wherever it stands, is not selected. */
  lemma SelectSkips<T>(before: seq<T>, x: T, after: seq<T>, key: T -> int, k: int)
    requires key(x) != k
    ensures Select(before + [x] + after, key, k) == Select(before + after, key, k)
  {
    var bx := before + [x];
    assert bx[..|bx| - 1] == before;
    assert Select(bx, key, k) == Select(before, key, k) + [];
    SelectAppend(bx, after, key, k);
    SelectAppend(before, after, key, k);
  }

  /** The sum of the selected records grows by `f(x)` exactly when `x` has key `k`. */
  lemma SumSelectSnoc<T>(s: seq<T>, x: T, key: T -> int, k: int, f: T -> real)
    ensures Sum(Select(s + [x], key, k), f)
         == Sum(Select(s, key, k), f) + (if key(x) == k then f(x) else 0.0)
  {
    SelectAppend(s, [x], key, k);
    assert Select([x], key, k) == (if key(x) == k then [x] else []) by {
      assert [x][..0] == [];
    }
    SumAppend(Select(s, key, k), Select([x], key, k), f);
    if key(x) == k {
      assert Sum([x], f) == f(x) by { assert [x][..0] == []; }
    }
  }

  lemma RemoveAtMultiset<T>(b: seq<T>, i: nat)
    requires i < |b|
    ensures multiset(b[..i] + b[i + 1..]) == multiset(b) - multiset{b[i]}
  {
    var x, pre, post := b[i], b[..i], b[i + 1..];
    assert b == pre + ([x] + post);
    assert multiset(b) == multiset(pre) + multiset([x] + post);
  }

  lemma RemoveAtSum<T>(b: seq<T>, i: nat, f: T -> real)
    requires i < |b|
    ensures Sum(b, f) == Sum(b[..i] + b[i + 1..], f) + f(b[i])
  {
    var x, pre, post := b[i], b[..i], b[i + 1..];
    assert b == pre + ([x] + post);
    SumAppend(pre, [x] + post, f);
    SumAppend([x], post, f);
    assert Sum([x], f) == f(x) by { assert [x][..0] == []; }
    SumAppend(pre, post, f);
  }

  /** Taking one record out of a list: what remains, as a multiset and as a sum. */
  lemma RemoveAt<T>(b: seq<T>, i: nat, f: T -> real)
    requires i < |b|
    ensures multiset(b[..i] + b[i + 1..]) == multiset(b) - multiset{b[i]}
    ensures Sum(b, f) == Sum(b[..i] + b[i + 1..], f) + f(b[i])
  {
    RemoveAtMultiset(b, i);
    RemoveAtSum(b, i, f);
  }

  /** A sum does not depend on the order of its records. */
  lemma {:induction false} SumPermutation<T>(a: seq<T>, b: seq<T>, f: T -> real)
    requires multiset(a) == multiset(b)
    ensures Sum(a, f) == Sum(b, f)
    decreases |a|
  {
    if |a| == 0 {
      assert |b| == |multiset(b)| == 0;
    } else {
      var x := a[|a| - 1];
      var a' := a[..|a| - 1];
      assert a == a' + [x];
      assert multiset(a') == multiset(a) - multiset{x};
      assert x in multiset(b);
      var i :| 0 <= i < |b| && b[i] == x;
      RemoveAt(b, i, f);
      SumPermutation(a', b[..i] + b[i + 1..], f);
    }
  }

  lemma SplitAt<T>(b: seq<T>, i: nat)
    requires i < |b|
    ensures b == b[..i] + [b[i]] + b[i + 1..]
  {
  }

  /** Putting the same part back on both sides of a permutation, at any position. */
  lemma ReinsertOne<T>(s: seq<T>, pre: seq<T>, x: seq<T>, post: seq<T>)
    requires multiset(s) == multiset(pre + post)
    ensures multiset(s + x) == multiset(pre + x + post)
  {
    assert multiset(pre + x + post) == multiset(pre) + multiset(x) + multiset(post);
  }

  /** Selecting from a list split around one record. */
  lemma SelectAround<T>(pre: seq<T>, x: T, post: seq<T>, key: T -> int, k: int)
    ensures Select(pre + [x] + post, key, k) == Select(pre, key, k) + Select([x], key, k) + Select(post, key, k)
    ensures Select(pre + post, key, k) == Select(pre, key, k) + Select(post, key, k)
  {
    SelectAppend(pre + [x], post, key, k);
    SelectAppend(pre, [x], key, k);
    SelectAppend(pre, post, key, k);
  }

  /** Reordering the records reorders, but does not change, any selection of them. */
  lemma {:induction false} SelectPermutation<T>(a: seq<T>, b: seq<T>, key: T -> int, k: int)
    requires multiset(a) == multiset(b)
    ensures multiset(Select(a, key, k)) == multiset(Select(b, key, k))
    decreases |a|
  {
    if |a| == 0 {
      assert |b| == |multiset(b)| == 0;
    } else {
      var x := a[|a| - 1];
      var a' := a[..|a| - 1];
      assert a == a' + [x];
      assert x in multiset(b);
      var i :| 0 <= i < |b| && b[i] == x;
      var pre, post := b[..i], b[i + 1..];
      RemoveAtMultiset(b, i);
      assert multiset(a') == multiset(a) - multiset{x};
      SelectPermutation(a', pre + post, key, k);
      SelectAppend(a', [x], key, k);
      SplitAt(b, i);
      SelectAround(pre, x, post, key, k);
      ReinsertOne(Select(a', key, k), Select(pre, key, k), Select([x], key, k), Select(post, key, k));
    }
  }
}
