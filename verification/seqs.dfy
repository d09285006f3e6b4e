/** Selections over tables held as sequences of rows.
    Each function is the meaning of one SQL shape used by the store:
    `WHERE p` (Filter), `WHERE p` then the first row (First),
    `WHERE p ORDER BY key DESC LIMIT 1` (Top), `ORDER BY key` (SortBy),
    `LIMIT n` (Limit) and `UPDATE … WHERE p` (UpdateWhere). */
module Seqs {

  datatype Option<+T> = None | Some(value: T)

  /** The first row, in storage order, that satisfies `p`. */
  function First<T>(rows: seq<T>, p: T -> bool): (r: Option<T>)
    ensures r.None? <==> forall i :: 0 <= i < |rows| ==> !p(rows[i])
    ensures r.Some? ==>
      exists k :: 0 <= k < |rows| && rows[k] == r.value && p(rows[k]) &&
        forall j :: 0 <= j < k ==> !p(rows[j])
  {
    if rows == [] then None
    else if p(rows[0]) then Some(rows[0])
    else
      var r := First(rows[1..], p);
      assert r.Some? ==>
        exists k :: 1 <= k < |rows| && rows[k] == r.value && p(rows[k]) &&
          forall j :: 1 <= j < k ==> !p(rows[j])
      by {
        if r.Some? {
          var k :| 0 <= k < |rows[1..]| && rows[1..][k] == r.value && p(rows[1..][k]) &&
            forall j :: 0 <= j < k ==> !p(rows[1..][j]);
          assert rows[k + 1] == rows[1..][k];
          forall j | 1 <= j < k + 1 ensures !p(rows[j]) {
            assert rows[j] == rows[1..][j - 1];
          }
        }
      }
      r
  }

  /** The rows that satisfy `p`, in storage order, each as often as it is stored. */
  function Filter<T(!new)>(s: seq<T>, p: T -> bool): (r: seq<T>)
    ensures |r| <= |s|
    ensures forall i :: 0 <= i < |r| ==> p(r[i])
  {
    if s == [] then []
    else if p(s[0]) then [s[0]] + Filter(s[1..], p) else Filter(s[1..], p)
  }

  /** The filter keeps every accepted element as often as it occurs, and no other. */
  lemma {:induction false} FilterCounts<T(!new)>(s: seq<T>, p: T -> bool)
    ensures forall x :: multiset(Filter(s, p))[x] == if p(x) then multiset(s)[x] else 0
  {
    if s != [] {
      assert s == [s[0]] + s[1..];
      FilterCounts(s[1..], p);
    }
  }

  /** A row satisfying `p` whose `key` is largest; among equal keys the earliest stored row. */
  function Top<T>(rows: seq<T>, p: T -> bool, key: T -> int): (r: Option<T>)
    ensures r.None? <==> forall i :: 0 <= i < |rows| ==> !p(rows[i])
    ensures r.Some? ==> r.value in rows && p(r.value)
    ensures r.Some? ==> forall i :: 0 <= i < |rows| && p(rows[i]) ==> key(rows[i]) <= key(r.value)
  {
    if rows == [] then None
    else
      var rest := Top(rows[1..], p, key);
      assert forall i :: 1 <= i < |rows| ==> rows[i] == rows[1..][i - 1];
      if !p(rows[0]) then rest
      else if rest.Some? && key(rows[0]) < key(rest.value) then rest
      else Some(rows[0])
  }

  /** `key` never decreases along `s`. */
  predicate SortedBy<T>(s: seq<T>, key: T -> int)
  {
    forall i, j :: 0 <= i < j < |s| ==> key(s[i]) <= key(s[j])
  }

  /** Puts `x` into the sorted `s` before the first element whose key is not smaller. */
  function InsertBy<T>(x: T, s: seq<T>, key: T -> int): (r: seq<T>)
    requires SortedBy(s, key)
    ensures |r| == |s| + 1
    ensures multiset(r) == multiset(s) + multiset{x}
    ensures SortedBy(r, key)
  {
    if s == [] then [x]
    else if key(x) <= key(s[0]) then
      SortedCons(x, s, key);
      [x] + s
    else
      assert s == [s[0]] + s[1..];
      var rest := InsertBy(x, s[1..], key);
      BoundSurvivesPermutation(rest, s[1..] + [x], key, key(s[0]));
      SortedCons(s[0], rest, key);
      [s[0]] + rest
  }

  /** An element whose key is at most every key of a sorted sequence can go in front of it. */
  lemma SortedCons<T>(y: T, s: seq<T>, key: T -> int)
    requires SortedBy(s, key)
    requires s != [] ==> key(y) <= key(s[0])
    ensures SortedBy([y] + s, key)
  {
  }

  /** A lower bound on the keys of a sequence bounds the keys of each of its permutations. */
  lemma BoundSurvivesPermutation<T>(r: seq<T>, s: seq<T>, key: T -> int, bound: int)
    requires multiset(r) == multiset(s)
    requires forall i :: 0 <= i < |s| ==> bound <= key(s[i])
    ensures forall i :: 0 <= i < |r| ==> bound <= key(r[i])
  {
    forall i | 0 <= i < |r| ensures bound <= key(r[i]) {
      assert r[i] in multiset(s) by {
        assert r[i] in multiset(r);
      }
      var k :| 0 <= k < |s| && s[k] == r[i];
    }
  }

  /** `ORDER BY key`: the rows of `s`, rearranged so that `key` never decreases. */
  function SortBy<T>(s: seq<T>, key: T -> int): (r: seq<T>)
    ensures |r| == |s|
    ensures multiset(r) == multiset(s)
    ensures SortedBy(r, key)
  {
    if s == [] then []
    else
      assert s == [s[0]] + s[1..];
      InsertBy(s[0], SortBy(s[1..], key), key)
  }

  /** `LIMIT n`: the first `n` rows; MySQL refuses a negative limit, and the failed query reads as no rows. */
  function Limit<T>(s: seq<T>, n: int): (r: seq<T>)
    ensures |r| == if n <= 0 then 0 else if n < |s| then n else |s|
    ensures r == s[..|r|]
  {
    if n <= 0 then [] else if n < |s| then s[..n] else s
  }

  /** Cutting a sorted sequence keeps it sorted, drops elements only, and every
      element cut off has a key no smaller than any element kept. */
  lemma LimitOfSorted<T>(s: seq<T>, n: int, key: T -> int)
    requires SortedBy(s, key)
    ensures SortedBy(Limit(s, n), key)
    ensures multiset(Limit(s, n)) <= multiset(s)
    ensures forall x :: x in s && x !in Limit(s, n) ==>
      forall i :: 0 <= i < |Limit(s, n)| ==> key(Limit(s, n)[i]) <= key(x)
  {
    var r := Limit(s, n);
    assert s == r + s[|r|..];
    forall x | x in s && x !in r
      ensures forall i :: 0 <= i < |r| ==> key(r[i]) <= key(x)
    {
      var k :| 0 <= k < |s| && s[k] == x;
    }
  }

  /** `UPDATE … SET … WHERE p`: every row satisfying `p` is rewritten by `f`, every other row is kept. */
  function UpdateWhere<T>(rows: seq<T>, p: T -> bool, f: T -> T): (r: seq<T>)
    ensures |r| == |rows|
    ensures forall i :: 0 <= i < |rows| ==> r[i] == if p(rows[i]) then f(rows[i]) else rows[i]
  {
    if rows == [] then []
    else
      assert forall i :: 1 <= i < |rows| ==> rows[i] == rows[1..][i - 1];
      [if p(rows[0]) then f(rows[0]) else rows[0]] + UpdateWhere(rows[1..], p, f)
  }

  /** Filtering distributes over concatenation. */
  lemma {:induction false} FilterAppend<T(!new)>(a: seq<T>, b: seq<T>, p: T -> bool)
    ensures Filter(a + b, p) == Filter(a, p) + Filter(b, p)
  {
    if a == [] {
      assert a + b == b;
    } else {
      assert (a + b)[0] == a[0];
      assert (a + b)[1..] == a[1..] + b;
      FilterAppend(a[1..], b, p);
    }
  }

  /** An element the filter rejects can be dropped from anywhere in the input. */
  lemma FilterSkipsRejected<T(!new)>(a: seq<T>, x: T, b: seq<T>, p: T -> bool)
    requires !p(x)
    ensures Filter(a + [x] + b, p) == Filter(a + b, p)
  {
    assert Filter([x], p) == [] by {
      assert [x][1..] == [];
    }
    FilterAppend(a + [x], b, p);
    FilterAppend(a, [x], p);
    FilterAppend(a, b, p);
  }

  /** A sequence whose every element satisfies `p` passes the filter unchanged. */
  lemma {:induction false} FilterKeepsAll<T(!new)>(s: seq<T>, p: T -> bool)
    requires forall i :: 0 <= i < |s| ==> p(s[i])
    ensures Filter(s, p) == s
  {
    if s != [] {
      FilterKeepsAll(s[1..], p);
    }
  }

  /** Filtering twice by the same predicate is filtering once. */
  lemma FilterIdempotent<T(!new)>(s: seq<T>, p: T -> bool)
    ensures Filter(Filter(s, p), p) == Filter(s, p)
  {
  }
}
