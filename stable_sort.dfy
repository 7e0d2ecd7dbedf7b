/**
 * The stable sort and the "first n" selection the analyzer builds on.
 *
 * Python's `sorted(s, key=k, reverse=rev)` compares the keys `k(x)` (here
 * pairs of reals, compared lexicographically like Python tuples), and is
 * stable: elements whose keys are equal keep their input order, also when
 * `reverse` is set (the comparisons are reversed, not the result). The
 * model sorts by insertion and states stability per key: the elements
 * with any given key appear in the result in exactly their input order.
 */
module StableSort {

  /** A sort key: Python's `(major, minor)` tuple, or `(value, 0)` for a single number. */
  datatype SortKey = SortKey(major: real, minor: real)

  /** Python's `<` on two-element tuples of numbers. */
  predicate KeyLess(a: SortKey, b: SortKey)
  {
    a.major < b.major || (a.major == b.major && a.minor < b.minor)
  }

  /** `a` goes strictly before `b` in `sorted(..., key=key, reverse=reverse)`. */
  predicate Before<T>(key: T -> SortKey, reverse: bool, a: T, b: T)
  {
    if reverse then KeyLess(key(b), key(a)) else KeyLess(key(a), key(b))
  }

  /** No element goes strictly before an element to its left. */
  ghost predicate Sorted<T>(s: seq<T>, key: T -> SortKey, reverse: bool)
  {
    forall i, j :: 0 <= i < j < |s| ==> !Before(key, reverse, s[j], s[i])
  }

  /** The subsequence of `s` whose key is `k`, in the order of `s`. */
  function WithKey<T>(s: seq<T>, key: T -> SortKey, k: SortKey): seq<T>
  {
    if s == [] then []
    else (if key(s[0]) == k then [s[0]] else []) + WithKey(s[1..], key, k)
  }

  /** Puts `x` into sorted `s` just before the first element that `x` goes strictly before. */
  function Insert<T>(x: T, s: seq<T>, key: T -> SortKey, reverse: bool): (r: seq<T>)
    ensures |r| == |s| + 1
  {
    if s == [] then [x]
    else if Before(key, reverse, x, s[0]) then [x] + s
    else [s[0]] + Insert(x, s[1..], key, reverse)
  }

  /** Inserts the elements of `s` one by one, from the first to the last. */
  function InsertionSort<T>(s: seq<T>, key: T -> SortKey, reverse: bool): (r: seq<T>)
    ensures |r| == |s|
  {
    if s == [] then []
    else Insert(s[|s| - 1], InsertionSort(s[..|s| - 1], key, reverse), key, reverse)
  }

  /** The smaller of two integers. */
  function Min(a: int, b: int): int
  {
    if a <= b then a else b
  }

  /** The first `n` elements, or all of them when there are fewer (Python's `s[:n]`). */
  function Take<T>(s: seq<T>, n: nat): (r: seq<T>)
    ensures |r| == Min(n, |s|)
    ensures r <= s
  {
    s[..Min(n, |s|)]
  }

  lemma {:induction false} InsertPermutes<T>(x: T, s: seq<T>, key: T -> SortKey, reverse: bool)
    ensures multiset(Insert(x, s, key, reverse)) == multiset(s) + multiset{x}
  {
    if s != [] && !Before(key, reverse, x, s[0]) {
      InsertPermutes(x, s[1..], key, reverse);
      assert s == [s[0]] + s[1..];
    }
  }

  /** The sort only reorders: the result is a permutation of the input. */
  lemma {:induction false} SortPermutes<T>(s: seq<T>, key: T -> SortKey, reverse: bool)
    ensures multiset(InsertionSort(s, key, reverse)) == multiset(s)
  {
    if s != [] {
      SortPermutes(s[..|s| - 1], key, reverse);
      InsertPermutes(s[|s| - 1], InsertionSort(s[..|s| - 1], key, reverse), key, reverse);
      assert s == s[..|s| - 1] + [s[|s| - 1]];
    }
  }

  lemma {:induction false} WithKeyAppend<T>(a: seq<T>, b: seq<T>, key: T -> SortKey, k: SortKey)
    ensures WithKey(a + b, key, k) == WithKey(a, key, k) + WithKey(b, key, k)
  {
    if a == [] {
      assert a + b == b;
    } else {
      assert (a + b)[0] == a[0];
      assert (a + b)[1..] == a[1..] + b;
      WithKeyAppend(a[1..], b, key, k);
    }
  }

  lemma {:induction false} WithKeyNone<T>(s: seq<T>, key: T -> SortKey, k: SortKey)
    requires forall i :: 0 <= i < |s| ==> key(s[i]) != k
    ensures WithKey(s, key, k) == []
  {
    if s != [] {
      WithKeyNone(s[1..], key, k);
    }
  }

  lemma {:induction false} InsertSorted<T>(x: T, s: seq<T>, key: T -> SortKey, reverse: bool)
    requires Sorted(s, key, reverse)
    ensures Sorted(Insert(x, s, key, reverse), key, reverse)
  {
    if s != [] && !Before(key, reverse, x, s[0]) {
      var rest := Insert(x, s[1..], key, reverse);
      InsertSorted(x, s[1..], key, reverse);
      InsertPermutes(x, s[1..], key, reverse);
      forall j | 0 <= j < |rest|
        ensures !Before(key, reverse, rest[j], s[0])
      {
        assert rest[j] in multiset(s[1..]) + multiset{x} by {
          assert rest[j] in multiset(rest);
        }
        if rest[j] != x {
          var i :| 0 <= i < |s[1..]| && s[1..][i] == rest[j];
          assert s[i + 1] == rest[j];
        }
      }
      assert Insert(x, s, key, reverse) == [s[0]] + rest;
    }
  }

  /** The order the sort establishes: no element goes before one to its left. */
  lemma {:induction false} SortSorted<T>(s: seq<T>, key: T -> SortKey, reverse: bool)
    ensures Sorted(InsertionSort(s, key, reverse), key, reverse)
  {
    if s != [] {
      SortSorted(s[..|s| - 1], key, reverse);
      InsertSorted(s[|s| - 1], InsertionSort(s[..|s| - 1], key, reverse), key, reverse);
    }
  }

  lemma {:induction false} InsertWithKey<T>(x: T, s: seq<T>, key: T -> SortKey, reverse: bool, k: SortKey)
    requires Sorted(s, key, reverse)
    ensures WithKey(Insert(x, s, key, reverse), key, k)
         == WithKey(s, key, k) + (if key(x) == k then [x] else [])
  {
    var last := if key(x) == k then [x] else [];
    if s == [] {
      assert [x][1..] == [];
      assert WithKey(Insert(x, s, key, reverse), key, k) == WithKey(s, key, k) + last;
    } else if Before(key, reverse, x, s[0]) {
      assert Insert(x, s, key, reverse) == [x] + s;
      assert ([x] + s)[1..] == s;
      assert WithKey([x] + s, key, k) == last + WithKey(s, key, k);
      if key(x) == k {
        forall i | 0 <= i < |s|
          ensures key(s[i]) != k
        {
          assert i == 0 || !Before(key, reverse, s[i], s[0]);
        }
        WithKeyNone(s, key, k);
      }
      assert WithKey(Insert(x, s, key, reverse), key, k) == WithKey(s, key, k) + last;
    } else {
      var rest := Insert(x, s[1..], key, reverse);
      var first := if key(s[0]) == k then [s[0]] else [];
      assert Insert(x, s, key, reverse) == [s[0]] + rest;
      assert ([s[0]] + rest)[1..] == rest;
      assert WithKey([s[0]] + rest, key, k) == first + WithKey(rest, key, k);
      InsertWithKey(x, s[1..], key, reverse, k);
      assert WithKey(s, key, k) == first + WithKey(s[1..], key, k);
      assert first + (WithKey(s[1..], key, k) + last) == (first + WithKey(s[1..], key, k)) + last;
      assert WithKey(Insert(x, s, key, reverse), key, k) == WithKey(s, key, k) + last;
    }
  }

  /** Stability: the elements with any one key keep their input order. */
  lemma {:induction false} SortStable<T>(s: seq<T>, key: T -> SortKey, reverse: bool, k: SortKey)
    ensures WithKey(InsertionSort(s, key, reverse), key, k) == WithKey(s, key, k)
  {
    if s != [] {
      var init, x := s[..|s| - 1], s[|s| - 1];
      var sortedInit := InsertionSort(init, key, reverse);
      SortStable(init, key, reverse, k);
      SortSorted(init, key, reverse);
      InsertWithKey(x, sortedInit, key, reverse, k);
      assert s == init + [x];
      WithKeyAppend(init, [x], key, k);
      assert [x][1..] == [];
    }
  }

  /**
   * The first `n` of the stable sort: as many as there are (at most `n`),
   * in order, drawn from `s`; nothing else of `s` goes before any of them;
   * and for each key they are the earliest elements of `s` with that key,
   * in the order of `s`.
   */
  lemma SortedTake<T>(s: seq<T>, n: nat, key: T -> SortKey, reverse: bool)
    ensures var r := Take(InsertionSort(s, key, reverse), n);
      && |r| == Min(n, |s|)
      && Sorted(r, key, reverse)
      && multiset(r) <= multiset(s)
      && (forall i, e :: 0 <= i < |r| && e in multiset(s) - multiset(r) ==> !Before(key, reverse, e, r[i]))
      && (forall k :: WithKey(r, key, k) <= WithKey(s, key, k))
  {
    var sorted := InsertionSort(s, key, reverse);
    var m := Min(n, |s|);
    var r, rest := sorted[..m], sorted[m..];
    SortSorted(s, key, reverse);
    SortPermutes(s, key, reverse);
    assert sorted == r + rest;
    assert multiset(s) == multiset(r) + multiset(rest);
    forall i, e | 0 <= i < |r| && e in multiset(s) - multiset(r)
      ensures !Before(key, reverse, e, r[i])
    {
      assert e in multiset(rest);
      var j :| 0 <= j < |rest| && rest[j] == e;
      assert sorted[m + j] == e;
    }
    forall k
      ensures WithKey(r, key, k) <= WithKey(s, key, k)
    {
      SortStable(s, key, reverse, k);
      WithKeyAppend(r, rest, key, k);
    }
  }
}
