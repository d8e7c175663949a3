/**
 * Sequence operations the queries are built from: filtering (SQL `WHERE`),
 * counting and summing (`COUNT`, `SUM`), removing duplicates (`GROUP BY`
 * keys) and a stable insertion sort by a caller-supplied "comes no later
 * than" relation (`ORDER BY`, and JavaScript's stable `Array.prototype.sort`).
 */
module Sequences {

  // ---------------------------------------------------------------- filter

  /** The elements satisfying `p`, in their original order. */
  function Filter<T(!new)>(s: seq<T>, p: T -> bool): (r: seq<T>)
    ensures |r| <= |s|
    ensures forall x :: x in r <==> x in s && p(x)
    ensures multiset(r) <= multiset(s)
  {
    if s == [] then []
    else
      assert s == [s[0]] + s[1..];
      (if p(s[0]) then [s[0]] else []) + Filter(s[1..], p)
  }

  lemma {:induction false} FilterAppend<T(!new)>(a: seq<T>, b: seq<T>, p: T -> bool)
    ensures Filter(a + b, p) == Filter(a, p) + Filter(b, p)
  {
    if a == [] {
      assert a + b == b;
    } else {
      assert (a + b)[1..] == a[1..] + b;
      FilterAppend(a[1..], b, p);
    }
  }

  /** Filtering keeps every satisfying element as often as it occurs. */
  lemma {:induction false} FilterCount<T(!new)>(s: seq<T>, p: T -> bool, x: T)
    ensures multiset(Filter(s, p))[x] == if p(x) then multiset(s)[x] else 0
  {
    if s != [] {
      FilterCount(s[1..], p, x);
      assert s == [s[0]] + s[1..];
    }
  }

  lemma FilterCounts<T(!new)>(s: seq<T>, p: T -> bool)
    ensures forall x :: multiset(Filter(s, p))[x] == if p(x) then multiset(s)[x] else 0
  {
    forall x {
      FilterCount(s, p, x);
    }
  }

  /**
   * When `p` holds exactly where one of two exclusive conditions `q`, `r`
   * holds, the elements selected by `p` are those selected by `q` plus those
   * selected by `r`.
   */
  lemma {:induction false} FilterSplit<T(!new)>(s: seq<T>, p: T -> bool, q: T -> bool, r: T -> bool, f: T -> int)
    requires forall x :: p(x) <==> q(x) || r(x)
    requires forall x :: !(q(x) && r(x))
    ensures |Filter(s, p)| == |Filter(s, q)| + |Filter(s, r)|
    ensures SumOf(Filter(s, p), f) == SumOf(Filter(s, q), f) + SumOf(Filter(s, r), f)
  {
    if s != [] {
      var x, t := s[0], s[1..];
      FilterSplit(t, p, q, r, f);
      var fp, fq, fr := Filter(t, p), Filter(t, q), Filter(t, r);
      assert Filter(s, p) == (if p(x) then [x] else []) + fp;
      assert Filter(s, q) == (if q(x) then [x] else []) + fq;
      assert Filter(s, r) == (if r(x) then [x] else []) + fr;
      if q(x) {
        assert !r(x) && p(x);
        assert Filter(s, r) == fr;
        assert SumOf([x] + fp, f) == f(x) + SumOf(fp, f) by { assert ([x] + fp)[1..] == fp; }
        assert SumOf([x] + fq, f) == f(x) + SumOf(fq, f) by { assert ([x] + fq)[1..] == fq; }
      } else if r(x) {
        assert p(x);
        assert Filter(s, q) == fq;
        assert SumOf([x] + fp, f) == f(x) + SumOf(fp, f) by { assert ([x] + fp)[1..] == fp; }
        assert SumOf([x] + fr, f) == f(x) + SumOf(fr, f) by { assert ([x] + fr)[1..] == fr; }
      } else {
        assert [] + fp == fp && [] + fq == fq && [] + fr == fr;
      }
    }
  }

  // ---------------------------------------------------------------- duplicates

  predicate NoDuplicates<T(==)>(s: seq<T>)
  {
    forall i, j :: 0 <= i < j < |s| ==> s[i] != s[j]
  }

  lemma {:induction false} NoDuplicatesCount<T>(s: seq<T>)
    ensures NoDuplicates(s) <==> forall x :: multiset(s)[x] <= 1
  {
    if s == [] {
    } else {
      NoDuplicatesCount(s[1..]);
      assert s == [s[0]] + s[1..];
      if NoDuplicates(s) {
        assert NoDuplicates(s[1..]) by {
          forall i, j | 0 <= i < j < |s[1..]| ensures s[1..][i] != s[1..][j] {
            assert s[1..][i] == s[i + 1] && s[1..][j] == s[j + 1];
          }
        }
        assert s[0] !in s[1..];
      }
      if forall x :: multiset(s)[x] <= 1 {
        assert forall x :: multiset(s[1..])[x] <= 1 by {
          forall x ensures multiset(s[1..])[x] <= 1 {
            assert multiset(s)[x] == multiset([s[0]])[x] + multiset(s[1..])[x];
          }
        }
        assert multiset(s)[s[0]] == 1 + multiset(s[1..])[s[0]];
        forall i, j | 0 <= i < j < |s| ensures s[i] != s[j] {
          if i == 0 {
            assert s[j] == s[1..][j - 1];
            assert s[j] in s[1..];
          } else {
            assert s[i] == s[1..][i - 1] && s[j] == s[1..][j - 1];
          }
        }
      }
    }
  }

  /** Selecting and reordering a duplicate-free sequence leaves it duplicate-free. */
  lemma NoDuplicatesSubmultiset<T>(s: seq<T>, r: seq<T>)
    requires NoDuplicates(s) && multiset(r) <= multiset(s)
    ensures NoDuplicates(r)
  {
    NoDuplicatesCount(s);
    NoDuplicatesCount(r);
    forall x ensures multiset(r)[x] <= 1 {
      assert multiset(r)[x] <= multiset(s)[x];
    }
  }

  /** Filters that agree on every element of `s` select the same elements. */
  lemma {:induction false} FilterEquivalent<T(!new)>(s: seq<T>, p: T -> bool, q: T -> bool)
    requires forall x :: x in s ==> (p(x) <==> q(x))
    ensures Filter(s, p) == Filter(s, q)
  {
    if s != [] {
      assert s == [s[0]] + s[1..];
      FilterEquivalent(s[1..], p, q);
    }
  }

  // ---------------------------------------------------------------- sum

  function SumOf<T>(s: seq<T>, f: T -> int): int
  {
    if s == [] then 0 else f(s[0]) + SumOf(s[1..], f)
  }

  lemma {:induction false} SumOfAppend<T>(a: seq<T>, b: seq<T>, f: T -> int)
    ensures SumOf(a + b, f) == SumOf(a, f) + SumOf(b, f)
  {
    if a == [] {
      assert a + b == b;
    } else {
      assert (a + b)[1..] == a[1..] + b;
      SumOfAppend(a[1..], b, f);
    }
  }

  // ---------------------------------------------------------------- distinct

  /** The distinct elements of `s`, each at its first occurrence. */
  function Distinct<T(==,!new)>(s: seq<T>): (r: seq<T>)
    ensures forall x :: x in r <==> x in s
    ensures forall i, j :: 0 <= i < j < |r| ==> r[i] != r[j]
    decreases |s|
  {
    if s == [] then []
    else
      var rest := Distinct(Filter(s[1..], x => x != s[0]));
      assert forall x :: x in rest ==> x != s[0];
      [s[0]] + rest
  }

  // ---------------------------------------------------------------- sort

  /** `le` is total and transitive, so it orders any sequence. */
  ghost predicate TotalPreorder<T(!new)>(le: (T, T) -> bool)
  {
    (forall a, b :: le(a, b) || le(b, a))
    && (forall a, b, c :: le(a, b) && le(b, c) ==> le(a, c))
  }

  ghost predicate SortedBy<T>(s: seq<T>, le: (T, T) -> bool)
  {
    forall i, j :: 0 <= i < j < |s| ==> le(s[i], s[j])
  }

  /** Puts `x` in front of the first element it comes no later than. */
  function Insert<T>(x: T, s: seq<T>, le: (T, T) -> bool): (r: seq<T>)
    ensures multiset(r) == multiset(s) + multiset{x}
    ensures |r| == |s| + 1
  {
    if s == [] || le(x, s[0]) then [x] + s
    else
      assert s == [s[0]] + s[1..];
      [s[0]] + Insert(x, s[1..], le)
  }

  lemma {:induction false} InsertSorted<T(!new)>(x: T, s: seq<T>, le: (T, T) -> bool)
    requires TotalPreorder(le) && SortedBy(s, le)
    ensures SortedBy(Insert(x, s, le), le)
  {
    if s == [] || le(x, s[0]) {
    } else {
      InsertSorted(x, s[1..], le);
      var r := Insert(x, s, le);
      var t := Insert(x, s[1..], le);
      assert r == [s[0]] + t;
      forall k | 0 <= k < |t| ensures le(s[0], t[k]) {
        assert t[k] in multiset(t);
        assert t[k] in multiset(s[1..]) + multiset{x};
        if t[k] in multiset(s[1..]) {
          var m :| 0 <= m < |s[1..]| && s[1..][m] == t[k];
          assert s[m + 1] == t[k];
        }
      }
    }
  }

  /** Stable insertion sort: each element is inserted into the sorted rest. */
  function SortBy<T(!new)>(s: seq<T>, le: (T, T) -> bool): (r: seq<T>)
    requires TotalPreorder(le)
    ensures SortedBy(r, le)
    ensures multiset(r) == multiset(s)
    ensures |r| == |s|
    ensures forall x :: x in r <==> x in s
  {
    if s == [] then []
    else
      var rest := SortBy(s[1..], le);
      InsertSorted(s[0], rest, le);
      assert s == [s[0]] + s[1..];
      var r := Insert(s[0], rest, le);
      assert forall x :: x in r <==> x in multiset(r);
      r
  }
}
