/** List helpers shared by several pages: the first `n` elements, filters, the first
    element meeting a condition, and a stable insertion sort as a function.
    `le(a, b)` holds when `a` may stay in front of `b`, i.e. when a JavaScript comparator
    `cmp(a, b)` is `<= 0`; elements that compare equal keep their order, as
    `Array.prototype.sort` does (it is stable). */
module Lists {
  import opened Wrappers

  /** The first `n` elements, or all of a shorter list: `s.slice(0, n)`,
      `s.substring(0, n)` and a query's `.limit(n)`. */
  function Take<T>(s: seq<T>, n: nat): (r: seq<T>)
    ensures |r| == if n <= |s| then n else |s|
    ensures r <= s
  {
    if n <= |s| then s[..n] else s
  }

  ghost predicate TotalPreorder<T(!new)>(le: (T, T) -> bool) {
    && (forall a, b :: le(a, b) || le(b, a))
    && (forall a, b, c :: le(a, b) && le(b, c) ==> le(a, c))
  }

  ghost predicate SortedBy<T>(s: seq<T>, le: (T, T) -> bool) {
    forall i, j :: 0 <= i < j < |s| ==> le(s[i], s[j])
  }

  /** Inserts `x` in front of the first element it may precede. */
  function Insert<T>(x: T, ys: seq<T>, le: (T, T) -> bool): (r: seq<T>)
    ensures |r| == |ys| + 1
    ensures multiset(r) == multiset(ys) + multiset{x}
    decreases |ys|
  {
    if ys == [] || le(x, ys[0]) then [x] + ys
    else
      assert ys == [ys[0]] + ys[1..];
      [ys[0]] + Insert(x, ys[1..], le)
  }

  function InsertionSort<T>(s: seq<T>, le: (T, T) -> bool): (r: seq<T>)
    ensures |r| == |s|
    ensures multiset(r) == multiset(s)
    decreases |s|
  {
    if s == [] then []
    else
      assert s == [s[0]] + s[1..];
      Insert(s[0], InsertionSort(s[1..], le), le)
  }

  lemma {:induction false} InsertSorted<T(!new)>(x: T, ys: seq<T>, le: (T, T) -> bool)
    requires TotalPreorder(le)
    requires SortedBy(ys, le)
    ensures SortedBy(Insert(x, ys, le), le)
    decreases |ys|
  {
    if ys == [] || le(x, ys[0]) {
      var r := [x] + ys;
      forall i, j | 0 <= i < j < |r| ensures le(r[i], r[j]) {
        if i == 0 && j > 1 {
          assert le(x, ys[0]) && le(ys[0], ys[j - 1]);
        }
      }
    } else {
      var tail := Insert(x, ys[1..], le);
      InsertSorted(x, ys[1..], le);
      var r := [ys[0]] + tail;
      assert le(ys[0], x);
      forall k | 0 <= k < |tail| ensures le(ys[0], tail[k]) {
        assert tail[k] in multiset(tail);
        assert tail[k] in multiset(ys[1..]) + multiset{x};
        if tail[k] != x {
          assert tail[k] in ys[1..];
          var m :| 0 <= m < |ys[1..]| && ys[1..][m] == tail[k];
          assert ys[m + 1] == tail[k];
        }
      }
      assert forall i, j :: 0 < i < j < |r| ==> le(r[i], r[j]) by {
        forall i, j | 0 < i < j < |r| ensures le(r[i], r[j]) {
          assert r[i] == tail[i - 1] && r[j] == tail[j - 1];
        }
      }
      assert forall j :: 0 < j < |r| ==> le(r[0], r[j]) by {
        forall j | 0 < j < |r| ensures le(r[0], r[j]) {
          assert r[j] == tail[j - 1];
        }
      }
    }
  }

  /** The sort returns its input's elements, ordered by `le`. */
  lemma {:induction false} SortIsSorted<T(!new)>(s: seq<T>, le: (T, T) -> bool)
    requires TotalPreorder(le)
    ensures SortedBy(InsertionSort(s, le), le)
    ensures multiset(InsertionSort(s, le)) == multiset(s)
    decreases |s|
  {
    if s != [] {
      SortIsSorted(s[1..], le);
      InsertSorted(s[0], InsertionSort(s[1..], le), le);
    }
  }

  /** A comparator that calls every pair equal (`return 0`) leaves the order as it was. */
  lemma {:induction false} SortKeepsOrderWhenAllEqual<T>(s: seq<T>, le: (T, T) -> bool)
    requires forall a: T, b: T :: le(a, b)
    ensures InsertionSort(s, le) == s
    decreases |s|
  {
    if s != [] {
      SortKeepsOrderWhenAllEqual(s[1..], le);
      assert InsertionSort(s[1..], le) == s[1..];
      assert [s[0]] + s[1..] == s;
    }
  }

  // ---------------------------------------------------------------------------
  // Filtering and counting

  /** `s.filter(p)`. */
  function Filter<T>(s: seq<T>, p: T -> bool): (r: seq<T>)
    ensures |r| <= |s|
    ensures forall i :: 0 <= i < |r| ==> p(r[i])
    decreases |s|
  {
    if s == [] then []
    else if p(s[0]) then
      assert s == [s[0]] + s[1..];
      [s[0]] + Filter(s[1..], p)
    else
      assert s == [s[0]] + s[1..];
      Filter(s[1..], p)
  }

  /** An element is kept exactly when it is in the list and meets the condition. */
  lemma {:induction false} FilterMembership<T>(s: seq<T>, p: T -> bool, x: T)
    ensures x in Filter(s, p) <==> x in s && p(x)
    decreases |s|
  {
    if s != [] {
      FilterMembership(s[1..], p, x);
      assert s == [s[0]] + s[1..];
    }
  }

  /** A filter keeps no element more often than the list holds it. */
  lemma {:induction false} FilterSubMultiset<T>(s: seq<T>, p: T -> bool)
    ensures multiset(Filter(s, p)) <= multiset(s)
    decreases |s|
  {
    if s != [] {
      FilterSubMultiset(s[1..], p);
      assert s == [s[0]] + s[1..];
    }
  }

  /** A prefix of a sorted list is sorted. */
  lemma TakeSorted<T>(s: seq<T>, n: nat, le: (T, T) -> bool)
    requires SortedBy(s, le)
    ensures SortedBy(Take(s, n), le)
  {
  }

  /** A prefix holds no element more often than the whole. */
  lemma TakeSubMultiset<T>(s: seq<T>, n: nat)
    ensures multiset(Take(s, n)) <= multiset(s)
  {
    var r := Take(s, n);
    assert s == r + s[|r|..];
  }

  /** Keeping everything keeps the list as it was. */
  lemma {:induction false} FilterAll<T>(s: seq<T>, p: T -> bool)
    requires forall x :: x in s ==> p(x)
    ensures Filter(s, p) == s
    decreases |s|
  {
    if s != [] {
      FilterAll(s[1..], p);
      assert [s[0]] + s[1..] == s;
    }
  }

  /** Filtering a list extended at the end extends the filtered list the same way. */
  lemma {:induction false} FilterSnoc<T>(s: seq<T>, x: T, p: T -> bool)
    ensures Filter(s + [x], p) == Filter(s, p) + (if p(x) then [x] else [])
    decreases |s|
  {
    if s == [] {
      assert [x][1..] == [];
    } else {
      FilterSnoc(s[1..], x, p);
      assert (s + [x])[1..] == s[1..] + [x];
    }
  }

  /** Two filters with disjoint conditions select at most the whole list between them. */
  lemma {:induction false} DisjointFilters<T>(s: seq<T>, p: T -> bool, q: T -> bool)
    requires forall x :: x in s ==> !(p(x) && q(x))
    ensures |Filter(s, p)| + |Filter(s, q)| <= |s|
    decreases |s|
  {
    if s != [] {
      DisjointFilters(s[1..], p, q);
    }
  }

  /** Filtering by the negation selects exactly what the filter leaves out. */
  lemma {:induction false} FilterComplement<T>(s: seq<T>, p: T -> bool, q: T -> bool)
    requires forall x :: x in s ==> (q(x) <==> !p(x))
    ensures |Filter(s, p)| + |Filter(s, q)| == |s|
    decreases |s|
  {
    if s != [] {
      FilterComplement(s[1..], p, q);
    }
  }

  /** `x` is a subsequence of `y`: `y` with some elements dropped, order kept. */
  predicate IsSubsequence<T(==)>(x: seq<T>, y: seq<T>)
    decreases |y|
  {
    if x == [] then true
    else if y == [] then false
    else if x[0] == y[0] then IsSubsequence(x[1..], y[1..])
    else IsSubsequence(x, y[1..])
  }

  lemma {:induction false} FilterIsSubsequence<T>(s: seq<T>, p: T -> bool)
    ensures IsSubsequence(Filter(s, p), s)
    decreases |s|
  {
    if s != [] {
      FilterIsSubsequence(s[1..], p);
      if p(s[0]) {
        assert ([s[0]] + Filter(s[1..], p))[1..] == Filter(s[1..], p);
      } else {
        var f := Filter(s[1..], p);
        if f != [] {
          assert f[0] in f;
          assert f[0] != s[0];
        }
      }
    }
  }

  lemma {:induction false} PrefixIsSubsequence<T>(x: seq<T>, y: seq<T>, n: nat)
    requires IsSubsequence(x, y)
    requires n <= |x|
    ensures IsSubsequence(x[..n], y)
    decreases |y|
  {
    if n == 0 || x == [] {
    } else if x[0] == y[0] {
      PrefixIsSubsequence(x[1..], y[1..], n - 1);
      assert x[..n][1..] == x[1..][..n - 1];
    } else {
      PrefixIsSubsequence(x, y[1..], n);
    }
  }

  /** `s[0]` of a possibly empty list, as `list?.[0]` reads it. */
  function First<T>(s: seq<T>): Option<T> {
    if |s| == 0 then None else Some(s[0])
  }

  /** The first element of `s.filter(p)`: the earliest element meeting `p`. */
  function FirstWhere<T>(s: seq<T>, p: T -> bool): (r: Option<T>)
    ensures r.None? <==> forall i :: 0 <= i < |s| ==> !p(s[i])
    ensures r.Some? ==> exists i :: 0 <= i < |s| && s[i] == r.value && p(s[i]) &&
                                    forall j :: 0 <= j < i ==> !p(s[j])
  {
    FirstOfFilter(s, p);
    First(Filter(s, p))
  }

  lemma {:induction false} FirstOfFilter<T>(s: seq<T>, p: T -> bool)
    ensures Filter(s, p) == [] <==> forall i :: 0 <= i < |s| ==> !p(s[i])
    ensures Filter(s, p) != [] ==> exists i :: 0 <= i < |s| && s[i] == Filter(s, p)[0] && p(s[i]) &&
                                               forall j :: 0 <= j < i ==> !p(s[j])
    decreases |s|
  {
    if s != [] {
      FirstOfFilter(s[1..], p);
      if !p(s[0]) && Filter(s, p) != [] {
        var i :| 0 <= i < |s[1..]| && s[1..][i] == Filter(s[1..], p)[0] && p(s[1..][i]) &&
                 forall j :: 0 <= j < i ==> !p(s[1..][j]);
        assert s[i + 1] == Filter(s, p)[0];
        assert forall j :: 0 <= j < i + 1 ==> !p(s[j]) by {
          forall j | 0 <= j < i + 1 ensures !p(s[j]) {
            if j > 0 { assert s[j] == s[1..][j - 1]; }
          }
        }
      }
      if Filter(s, p) == [] {
        forall i | 0 <= i < |s| ensures !p(s[i]) {
          if i > 0 { assert s[i] == s[1..][i - 1]; }
        }
      }
    }
  }
}
