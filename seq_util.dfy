/** Sortedness, duplicate-freeness and an ascending sort on integer lists. */
module SeqUtil {

  predicate Sorted(s: seq<int>) {
    forall i, j :: 0 <= i < j < |s| ==> s[i] <= s[j]
  }

  predicate Distinct<T(==)>(s: seq<T>) {
    forall i, j :: 0 <= i < j < |s| ==> s[i] != s[j]
  }

  /** The elements of `s` as a set. */
  function Elements<T>(s: seq<T>): set<T> {
    set x | x in s
  }

  /** The ids 1..n in ascending order. */
  function Range(n: nat): (r: seq<int>)
    ensures |r| == n
    ensures forall i :: 0 <= i < n ==> r[i] == i + 1
  {
    seq(n, i => i + 1)
  }

  /** Inserts `x` into a sorted list, keeping it sorted. */
  function Insert(x: int, s: seq<int>): (r: seq<int>)
    requires Sorted(s)
    ensures Sorted(r)
    ensures multiset(r) == multiset(s) + multiset{x}
  {
    if s == [] then [x]
    else if x <= s[0] then [x] + s
    else
      var t := Insert(x, s[1..]);
      LowerBound(s[0], t, multiset(s[1..]) + multiset{x});
      SortedCons(s[0], t);
      assert s == [s[0]] + s[1..];
      [s[0]] + t
  }

  lemma LowerBound(b: int, t: seq<int>, m: multiset<int>)
    requires multiset(t) == m
    requires forall y :: y in m ==> b <= y
    ensures forall i :: 0 <= i < |t| ==> b <= t[i]
  {
    forall i | 0 <= i < |t| ensures b <= t[i] {
      assert t[i] in multiset(t);
    }
  }

  lemma SortedCons(b: int, t: seq<int>)
    requires Sorted(t)
    requires forall i :: 0 <= i < |t| ==> b <= t[i]
    ensures Sorted([b] + t)
  {
    var u := [b] + t;
    forall i, j | 0 <= i < j < |u| ensures u[i] <= u[j] {
      assert u[j] == t[j - 1];
      if i > 0 { assert u[i] == t[i - 1]; }
    }
  }

  /**
   * Sorts ascending, as `Array.prototype.sort` with the comparator
   * `(a, b) => a - b` does: the result is the sorted permutation of `s`.
   */
  function SortAsc(s: seq<int>): (r: seq<int>)
    ensures Sorted(r)
    ensures multiset(r) == multiset(s)
  {
    if s == [] then []
    else
      assert s == [s[0]] + s[1..];
      Insert(s[0], SortAsc(s[1..]))
  }

  /** A list is duplicate-free exactly when no element occurs twice in its multiset. */
  lemma {:induction false} DistinctIffSingleOccurrences<T>(s: seq<T>)
    ensures Distinct(s) <==> forall x :: multiset(s)[x] <= 1
  {
    if s != [] {
      var t := s[1..];
      assert s == [s[0]] + t;
      DistinctIffSingleOccurrences(t);
      if Distinct(s) {
        assert Distinct(t) by {
          forall i, j | 0 <= i < j < |t| ensures t[i] != t[j] {
            assert t[i] == s[i + 1] && t[j] == s[j + 1];
          }
        }
        assert forall k :: 0 <= k < |t| ==> t[k] == s[k + 1];
        assert s[0] !in t;
      } else {
        var i, j :| 0 <= i < j < |s| && s[i] == s[j];
        if i == 0 {
          assert s[j] in t by { assert t[j - 1] == s[j]; }
          assert multiset(s)[s[0]] == multiset(t)[s[0]] + 1;
        } else {
          assert !Distinct(t) by { assert t[i - 1] == s[i] && t[j - 1] == s[j]; }
          var x :| multiset(t)[x] > 1;
          assert multiset(s)[x] >= multiset(t)[x];
        }
      }
    }
  }

  /** Two sorted lists with the same elements are equal. */
  lemma {:induction false} SortedUnique(a: seq<int>, b: seq<int>)
    requires Sorted(a) && Sorted(b) && multiset(a) == multiset(b)
    ensures a == b
  {
    if a == [] {
      assert |b| == |multiset(b)| == 0;
    } else {
      assert |b| == |multiset(b)| == |multiset(a)| == |a|;
      assert a[0] in multiset(b) && b[0] in multiset(a);
      assert a[0] == b[0] by {
        var i :| 0 <= i < |b| && b[i] == a[0];
        var j :| 0 <= j < |a| && a[j] == b[0];
      }
      assert a == [a[0]] + a[1..] && b == [b[0]] + b[1..];
      assert multiset(a[1..]) == multiset(a) - multiset{a[0]};
      assert multiset(b[1..]) == multiset(b) - multiset{b[0]};
      assert multiset(a[1..]) == multiset(b[1..]);
      SortedTail(a);
      SortedTail(b);
      SortedUnique(a[1..], b[1..]);
    }
  }

  lemma SortedTail(a: seq<int>)
    requires Sorted(a) && a != []
    ensures Sorted(a[1..])
  {
    forall i, j | 0 <= i < j < |a| - 1 ensures a[1..][i] <= a[1..][j] {
      assert a[1..][i] == a[i + 1] && a[1..][j] == a[j + 1];
    }
  }

  /** A duplicate-free list has as many distinct elements as entries. */
  lemma {:induction false} DistinctCardinality<T>(s: seq<T>)
    requires Distinct(s)
    ensures |Elements(s)| == |s|
  {
    if s != [] {
      var t := s[1..];
      assert Distinct(t) by {
        forall i, j | 0 <= i < j < |t| ensures t[i] != t[j] {
          assert t[i] == s[i + 1] && t[j] == s[j + 1];
        }
      }
      DistinctCardinality(t);
      assert forall k :: 0 <= k < |t| ==> t[k] == s[k + 1];
      assert s[0] !in Elements(t);
      assert s == [s[0]] + t;
      assert Elements(s) == Elements(t) + {s[0]};
    }
  }

  /** 1..n+1 extends 1..n by n+1, which 1..n lacks. */
  lemma RangeSnoc(n: nat)
    ensures Range(n + 1) == Range(n) + [n + 1]
    ensures n + 1 !in Range(n)
  {
    assert forall i | 0 <= i < n :: Range(n)[i] < n + 1;
  }

  /** The ids 1..n, as a set, are n many. */
  lemma RangeElements(n: nat)
    ensures forall k :: k in Elements(Range(n)) <==> 1 <= k <= n
    ensures |Elements(Range(n))| == n
  {
    var r := Range(n);
    forall k | 1 <= k <= n ensures k in Elements(r) {
      assert r[k - 1] == k;
    }
    assert Distinct(r);
    DistinctCardinality(r);
  }

  /** A subset is no larger than its superset. */
  lemma {:induction false} SubsetCardinality<T>(a: set<T>, b: set<T>)
    requires a <= b
    ensures |a| <= |b|
  {
    if a != {} {
      var x :| x in a;
      SubsetCardinality(a - {x}, b - {x});
    }
  }
}
