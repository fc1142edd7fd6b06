/** Sorting as the data layer uses it (`sorted { ... }` and the sort
    descriptors of a fetch): an insertion sort over any total preorder, with
    the facts the stores rely on. */
module Sorting {
  import opened Domain
  import opened Seqs

  /** `le` is total and transitive (so also reflexive). */
  ghost predicate TotalPreorder<T(!new)>(le: (T, T) -> bool) {
    && (forall a, b :: le(a, b) || le(b, a))
    && (forall a, b, c :: le(a, b) && le(b, c) ==> le(a, c))
  }

  ghost predicate Antisymmetric<T(!new)>(le: (T, T) -> bool) {
    forall a, b :: le(a, b) && le(b, a) ==> a == b
  }

  predicate Sorted<T>(s: seq<T>, le: (T, T) -> bool) {
    forall i, j :: 0 <= i < j < |s| ==> le(s[i], s[j])
  }

  /** A key that grows from each element to the next grows from every element to every later one. */
  lemma {:induction false} KeyIncreasingPair<T>(s: seq<T>, key: T -> int, i: nat, j: nat)
    requires forall k :: 0 <= k < |s| - 1 ==> key(s[k]) < key(s[k + 1])
    requires i < j < |s|
    ensures key(s[i]) < key(s[j])
    decreases j - i
  {
    if i + 1 < j {
      KeyIncreasingPair(s, key, i + 1, j);
      assert key(s[i]) < key(s[i + 1]);
    }
  }

  /** Inserts `x` before the first element it does not exceed. */
  function Insert<T>(x: T, s: seq<T>, le: (T, T) -> bool): (r: seq<T>)
    ensures multiset(r) == multiset(s) + multiset{x}
  {
    if |s| == 0 then [x]
    else if le(x, s[0]) then [x] + s
    else
      assert s == [s[0]] + s[1..];
      [s[0]] + Insert(x, s[1..], le)
  }

  /** The order `sorted(by:)` produces, as an insertion sort. */
  function SortBy<T>(s: seq<T>, le: (T, T) -> bool): (r: seq<T>)
    ensures multiset(r) == multiset(s)
  {
    if |s| == 0 then []
    else
      assert s == [s[0]] + s[1..];
      Insert(s[0], SortBy(s[1..], le), le)
  }

  lemma SortedCons<T>(h: T, t: seq<T>, le: (T, T) -> bool)
    requires Sorted(t, le)
    requires forall i :: 0 <= i < |t| ==> le(h, t[i])
    ensures Sorted([h] + t, le)
  {
    forall i, j | 0 <= i < j < |[h] + t| ensures le(([h] + t)[i], ([h] + t)[j]) {
      if i == 0 {
        assert ([h] + t)[j] == t[j - 1];
      } else {
        assert ([h] + t)[i] == t[i - 1] && ([h] + t)[j] == t[j - 1];
      }
    }
  }

  lemma {:induction false} InsertSorted<T(!new)>(x: T, s: seq<T>, le: (T, T) -> bool)
    requires TotalPreorder(le)
    requires Sorted(s, le)
    ensures Sorted(Insert(x, s, le), le)
  {
    if |s| == 0 {
    } else if le(x, s[0]) {
      SortedCons(x, s, le);
    } else {
      var rest := Insert(x, s[1..], le);
      assert Sorted(s[1..], le) by {
        forall i, j | 0 <= i < j < |s[1..]| ensures le(s[1..][i], s[1..][j]) {
          assert s[1..][i] == s[i + 1] && s[1..][j] == s[j + 1];
        }
      }
      InsertSorted(x, s[1..], le);
      forall i | 0 <= i < |rest| ensures le(s[0], rest[i]) {
        assert rest[i] in multiset(rest);
        if rest[i] == x {
        } else {
          assert rest[i] in multiset(s[1..]);
          var k :| 0 <= k < |s[1..]| && s[1..][k] == rest[i];
          assert s[1..][k] == s[k + 1];
        }
      }
      SortedCons(s[0], rest, le);
    }
  }

  lemma {:induction false} SortBySorted<T(!new)>(s: seq<T>, le: (T, T) -> bool)
    requires TotalPreorder(le)
    ensures Sorted(SortBy(s, le), le)
  {
    if |s| > 0 {
      SortBySorted(s[1..], le);
      InsertSorted(s[0], SortBy(s[1..], le), le);
    }
  }

  lemma SortedTail<T>(s: seq<T>, le: (T, T) -> bool)
    requires Sorted(s, le) && |s| > 0
    ensures Sorted(s[1..], le)
  {
    forall i, j | 0 <= i < j < |s[1..]| ensures le(s[1..][i], s[1..][j]) {
      assert s[1..][i] == s[i + 1] && s[1..][j] == s[j + 1];
    }
  }

  /** Under an antisymmetric order there is only one sorted arrangement of a multiset. */
  lemma {:induction false} SortedUnique<T(!new)>(a: seq<T>, b: seq<T>, le: (T, T) -> bool)
    requires TotalPreorder(le) && Antisymmetric(le)
    requires Sorted(a, le) && Sorted(b, le)
    requires multiset(a) == multiset(b)
    ensures a == b
  {
    if |a| == 0 {
      assert |multiset(b)| == 0;
    } else {
      assert |b| == |multiset(b)| == |a|;
      assert a[0] in multiset(b);
      assert le(a[0], a[0]) && le(b[0], b[0]);
      var k :| 0 <= k < |b| && b[k] == a[0];
      assert le(b[0], b[k]);
      assert b[0] in multiset(a);
      var m :| 0 <= m < |a| && a[m] == b[0];
      assert le(a[0], a[m]);
      assert a[0] == b[0];
      assert a == [a[0]] + a[1..];
      assert b == [b[0]] + b[1..];
      assert multiset(a) == multiset{a[0]} + multiset(a[1..]);
      assert multiset(b) == multiset{b[0]} + multiset(b[1..]);
      assert multiset(a[1..]) == multiset(a) - multiset{a[0]};
      assert multiset(b[1..]) == multiset(b) - multiset{b[0]};
      SortedTail(a, le);
      SortedTail(b, le);
      SortedUnique(a[1..], b[1..], le);
    }
  }

  /** A filtered sorted sequence stays sorted (a fetch keeps its sort order). */
  lemma {:induction false} FilterSorted<T>(s: seq<T>, p: T -> bool, le: (T, T) -> bool)
    requires Sorted(s, le)
    ensures Sorted(Filter(s, p), le)
  {
    if |s| > 0 {
      SortedTail(s, le);
      FilterSorted(s[1..], p, le);
      var rest := Filter(s[1..], p);
      if p(s[0]) {
        forall i | 0 <= i < |rest| ensures le(s[0], rest[i]) {
          var k :| 0 <= k < |s[1..]| && s[1..][k] == rest[i];
          assert s[1..][k] == s[k + 1];
        }
        SortedCons(s[0], rest, le);
      } else {
        assert Filter(s, p) == rest;
      }
    }
  }

  /** compactMap keeps the order when `f` turns the order on inputs into the order on outputs. */
  lemma {:induction false} CompactMapSorted<T, U>(s: seq<T>, f: T -> Option<U>, le: (T, T) -> bool, leU: (U, U) -> bool)
    requires Sorted(s, le)
    requires forall a, b :: f(a).Some? && f(b).Some? && le(a, b) ==> leU(f(a).value, f(b).value)
    ensures Sorted(CompactMap(s, f), leU)
  {
    if |s| > 0 {
      SortedTail(s, le);
      CompactMapSorted(s[1..], f, le, leU);
      var rest := CompactMap(s[1..], f);
      if f(s[0]).Some? {
        forall i | 0 <= i < |rest| ensures leU(f(s[0]).value, rest[i]) {
          var k :| 0 <= k < |s[1..]| && f(s[1..][k]) == Some(rest[i]);
          assert s[1..][k] == s[k + 1];
        }
        SortedCons(f(s[0]).value, rest, leU);
      } else {
        assert CompactMap(s, f) == rest;
      }
    }
  }
}
