/** Orderings on documents as a document store applies them: every document is
    mapped to a key (one number per sort field, negated for a descending field)
    and documents are ordered lexicographically by key. */
module Ordering {

  /** Lexicographic order on keys; a key is below every key it is a prefix of. */
  predicate LexLe(a: seq<real>, b: seq<real>) {
    a == [] || (b != [] && (a[0] < b[0] || (a[0] == b[0] && LexLe(a[1..], b[1..]))))
  }

  lemma {:induction false} LexLeTotal(a: seq<real>, b: seq<real>)
    ensures LexLe(a, b) || LexLe(b, a)
  {
    if a != [] && b != [] && a[0] == b[0] {
      LexLeTotal(a[1..], b[1..]);
    }
  }

  lemma {:induction false} LexLeTrans(a: seq<real>, b: seq<real>, c: seq<real>)
    requires LexLe(a, b) && LexLe(b, c)
    ensures LexLe(a, c)
  {
    if a != [] && b != [] && c != [] && a[0] == b[0] && b[0] == c[0] {
      LexLeTrans(a[1..], b[1..], c[1..]);
    }
  }

  /** On keys of one field, the order is the order of that field's values. */
  lemma LexLeSingle(x: real, y: real)
    ensures LexLe([x], [y]) <==> x <= y
  {
    assert [x][1..] == [];
  }

  ghost predicate SortedBy<T>(xs: seq<T>, key: T -> seq<real>) {
    forall i, j :: 0 <= i < j < |xs| ==> LexLe(key(xs[i]), key(xs[j]))
  }

  lemma ConsSorted<T>(h: T, rest: seq<T>, key: T -> seq<real>)
    requires SortedBy(rest, key)
    requires forall y :: y in rest ==> LexLe(key(h), key(y))
    ensures SortedBy([h] + rest, key)
  {
    var r := [h] + rest;
    forall i, j | 0 <= i < j < |r| ensures LexLe(key(r[i]), key(r[j])) {
      if i == 0 {
        assert r[j] == rest[j - 1] && rest[j - 1] in rest;
      } else {
        assert r[i] == rest[i - 1] && r[j] == rest[j - 1];
      }
    }
  }

  /** Inserts `x` into a sorted sequence before the first element it is not above. */
  function InsertBy<T(==)>(x: T, xs: seq<T>, key: T -> seq<real>): (r: seq<T>)
    requires SortedBy(xs, key)
    ensures |r| == |xs| + 1
    ensures multiset(r) == multiset(xs) + multiset{x}
    ensures SortedBy(r, key)
  {
    if xs == [] then [x]
    else if LexLe(key(x), key(xs[0])) then
      InsertFrontSorted(x, xs, key);
      [x] + xs
    else
      LexLeTotal(key(x), key(xs[0]));
      var rest := InsertBy(x, xs[1..], key);
      assert xs == [xs[0]] + xs[1..];
      InsertBehindSorted(xs, x, rest, key);
      [xs[0]] + rest
  }

  lemma InsertFrontSorted<T>(x: T, xs: seq<T>, key: T -> seq<real>)
    requires xs != [] && SortedBy(xs, key) && LexLe(key(x), key(xs[0]))
    ensures SortedBy([x] + xs, key)
  {
    forall y | y in xs ensures LexLe(key(x), key(y)) {
      var j :| 0 <= j < |xs| && xs[j] == y;
      if j > 0 { LexLeTrans(key(x), key(xs[0]), key(y)); }
    }
    ConsSorted(x, xs, key);
  }

  lemma InsertBehindSorted<T>(xs: seq<T>, x: T, rest: seq<T>, key: T -> seq<real>)
    requires xs != [] && SortedBy(xs, key) && LexLe(key(xs[0]), key(x))
    requires SortedBy(rest, key)
    requires multiset(rest) == multiset(xs[1..]) + multiset{x}
    ensures SortedBy([xs[0]] + rest, key)
  {
    forall y | y in rest ensures LexLe(key(xs[0]), key(y)) {
      assert y in multiset(rest);
      if y != x {
        assert y in multiset(xs[1..]);
        var j :| 0 <= j < |xs[1..]| && xs[1..][j] == y;
        assert xs[j + 1] == y;
      }
    }
    ConsSorted(xs[0], rest, key);
  }

  /** Every window of a sorted sequence is sorted. */
  lemma SortedWindow<T>(xs: seq<T>, lo: nat, hi: nat, key: T -> seq<real>)
    requires lo <= hi <= |xs| && SortedBy(xs, key)
    ensures SortedBy(xs[lo..hi], key)
  {
    var w := xs[lo..hi];
    forall i, j | 0 <= i < j < |w| ensures LexLe(key(w[i]), key(w[j])) {
      assert w[i] == xs[lo + i] && w[j] == xs[lo + j];
    }
  }

  /** Sorting by key: a permutation of `xs` whose keys ascend. */
  function SortBy<T(==)>(xs: seq<T>, key: T -> seq<real>): (r: seq<T>)
    ensures |r| == |xs|
    ensures multiset(r) == multiset(xs)
    ensures SortedBy(r, key)
  {
    if xs == [] then []
    else
      assert xs == [xs[0]] + xs[1..];
      InsertBy(xs[0], SortBy(xs[1..], key), key)
  }
}
