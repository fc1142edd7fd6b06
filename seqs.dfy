/** Sequence operations the data layer is built from: the first match of a
    fetch (`results.first`), filtering (`filter`, a fetch predicate),
    `compactMap`, and distinctness. */
module Seqs {
  import opened Domain

  /** Index of the first element satisfying `p`, the `.first` of a fetch in table order. */
  function FirstIndexWhere<T>(s: seq<T>, p: T -> bool): (r: Option<nat>)
    ensures r.Some? ==> r.value < |s| && p(s[r.value])
    ensures r.Some? ==> forall k :: 0 <= k < r.value ==> !p(s[k])
    ensures r.None? ==> forall k :: 0 <= k < |s| ==> !p(s[k])
  {
    if |s| == 0 then None
    else if p(s[0]) then Some(0)
    else match FirstIndexWhere(s[1..], p)
      case None => None
      case Some(k) => Some(k + 1)
  }

  /** The elements satisfying `p`, in order. */
  function Filter<T>(s: seq<T>, p: T -> bool): (r: seq<T>)
    ensures |r| <= |s|
    ensures forall i :: 0 <= i < |r| ==> r[i] in s && p(r[i])
    ensures forall i :: 0 <= i < |s| && p(s[i]) ==> s[i] in r
  {
    if |s| == 0 then [] else (if p(s[0]) then [s[0]] else []) + Filter(s[1..], p)
  }

  lemma {:induction false} FilterAppend<T>(a: seq<T>, b: seq<T>, p: T -> bool)
    ensures Filter(a + b, p) == Filter(a, p) + Filter(b, p)
  {
    if |a| == 0 {
      assert a + b == b;
    } else {
      assert (a + b)[1..] == a[1..] + b;
      FilterAppend(a[1..], b, p);
    }
  }

  /** Swift's compactMap: keep the present results of `f`, in order. */
  function CompactMap<T, U>(s: seq<T>, f: T -> Option<U>): (r: seq<U>)
    ensures |r| <= |s|
    ensures forall i :: 0 <= i < |r| ==> exists k :: 0 <= k < |s| && f(s[k]) == Some(r[i])
    ensures forall k :: 0 <= k < |s| && f(s[k]).Some? ==> f(s[k]).value in r
  {
    if |s| == 0 then []
    else (if f(s[0]).Some? then [f(s[0]).value] else []) + CompactMap(s[1..], f)
  }

  lemma {:induction false} CompactMapAppend<T, U>(a: seq<T>, b: seq<T>, f: T -> Option<U>)
    ensures CompactMap(a + b, f) == CompactMap(a, f) + CompactMap(b, f)
  {
    if |a| == 0 {
      assert a + b == b;
    } else {
      assert (a + b)[1..] == a[1..] + b;
      CompactMapAppend(a[1..], b, f);
    }
  }

  /** No two positions hold the same key. */
  predicate DistinctBy<T, K(==)>(s: seq<T>, key: T -> K) {
    forall i, j :: 0 <= i < j < |s| ==> key(s[i]) != key(s[j])
  }

  /** No two positions hold the same element. */
  predicate Distinct<T(==)>(s: seq<T>) {
    forall i, j :: 0 <= i < j < |s| ==> s[i] != s[j]
  }

  lemma {:induction false} DistinctMultiplicity<T>(s: seq<T>, x: T)
    requires Distinct(s)
    ensures multiset(s)[x] <= 1
  {
    if |s| > 0 {
      assert s == [s[0]] + s[1..];
      assert Distinct(s[1..]) by {
        forall i, j | 0 <= i < j < |s[1..]| ensures s[1..][i] != s[1..][j] {
          assert s[1..][i] == s[i + 1] && s[1..][j] == s[j + 1];
        }
      }
      DistinctMultiplicity(s[1..], x);
      if x == s[0] {
        assert x !in s[1..];
      }
    }
  }

  lemma RepeatedMultiplicity<T>(s: seq<T>, i: nat, j: nat)
    requires i < j < |s| && s[i] == s[j]
    ensures multiset(s)[s[i]] >= 2
  {
    assert s == s[..i] + [s[i]] + s[i + 1..j] + [s[j]] + s[j + 1..];
  }

  /** Reordering keeps the elements distinct. */
  lemma PermutationKeepsDistinct<T>(a: seq<T>, b: seq<T>)
    requires multiset(a) == multiset(b)
    requires Distinct(a)
    ensures Distinct(b)
  {
    forall i, j | 0 <= i < j < |b| ensures b[i] != b[j] {
      if b[i] == b[j] {
        RepeatedMultiplicity(b, i, j);
        DistinctMultiplicity(a, b[i]);
        assert false;
      }
    }
  }

  /** Distinct keys make the elements distinct. */
  lemma DistinctByIsDistinct<T, K>(s: seq<T>, key: T -> K)
    requires DistinctBy(s, key)
    ensures Distinct(s)
  {
  }

  /** Reordering keeps the keys distinct when elements that share a key are equal. */
  lemma PermutationKeepsDistinctBy<T, K>(a: seq<T>, b: seq<T>, key: T -> K)
    requires multiset(a) == multiset(b)
    requires DistinctBy(a, key)
    ensures DistinctBy(b, key)
  {
    DistinctByIsDistinct(a, key);
    PermutationKeepsDistinct(a, b);
    forall i, j | 0 <= i < j < |b| ensures key(b[i]) != key(b[j]) {
      assert b[i] in multiset(a) && b[j] in multiset(a);
      var p :| 0 <= p < |a| && a[p] == b[i];
      var q :| 0 <= q < |a| && a[q] == b[j];
      assert p != q;
    }
  }

  /** Swift's `map`. */
  function MapSeq<T, U>(s: seq<T>, f: T -> U): (r: seq<U>)
    ensures |r| == |s|
    ensures forall i :: 0 <= i < |s| ==> r[i] == f(s[i])
  {
    if |s| == 0 then [] else [f(s[0])] + MapSeq(s[1..], f)
  }

  /** Extending a prefix by one element extends its compactMap by that element's present result. */
  lemma CompactMapSnoc<T, U>(s: seq<T>, n: nat, f: T -> Option<U>)
    requires n < |s|
    ensures CompactMap(s[..n + 1], f) == CompactMap(s[..n], f) + (if f(s[n]).Some? then [f(s[n]).value] else [])
  {
    assert s[..n + 1] == s[..n] + [s[n]];
    CompactMapAppend(s[..n], [s[n]], f);
    assert [s[n]][1..] == [];
  }

  /** A compactMap through a left inverse undoes a map. */
  lemma {:induction false} CompactMapInverse<T, U>(s: seq<T>, enc: T -> U, dec: U -> Option<T>)
    requires forall x :: dec(enc(x)) == Some(x)
    ensures CompactMap(MapSeq(s, enc), dec) == s
  {
    if |s| > 0 {
      CompactMapInverse(s[1..], enc, dec);
      assert MapSeq(s, enc)[1..] == MapSeq(s[1..], enc);
      assert dec(MapSeq(s, enc)[0]) == Some(s[0]);
      assert s == [s[0]] + s[1..];
    }
  }

  /** Mapping a concatenation maps each part. */
  lemma MapSeqAppend<T, U>(a: seq<T>, b: seq<T>, f: T -> U)
    ensures MapSeq(a + b, f) == MapSeq(a, f) + MapSeq(b, f)
  {
    forall i | 0 <= i < |a| + |b| ensures MapSeq(a + b, f)[i] == (MapSeq(a, f) + MapSeq(b, f))[i] {
      if i < |a| {
        assert (a + b)[i] == a[i];
      } else {
        assert (a + b)[i] == b[i - |a|];
      }
    }
  }

  /** An element whose key is new keeps the keys distinct. */
  lemma DistinctBySnoc<T, K>(s: seq<T>, x: T, key: T -> K)
    requires DistinctBy(s, key)
    requires forall i :: 0 <= i < |s| ==> key(s[i]) != key(x)
    ensures DistinctBy(s + [x], key)
  {
    forall i, j | 0 <= i < j < |s + [x]| ensures key((s + [x])[i]) != key((s + [x])[j]) {
      assert (s + [x])[i] == s[i];
      if j < |s| {
        assert (s + [x])[j] == s[j];
      }
    }
  }

  /** Projecting the results of a compactMap is one compactMap with the projection folded in. */
  lemma {:induction false} CompactMapThenMap<T, U, V>(s: seq<T>, f: T -> Option<U>, h: U -> V, g: T -> Option<V>)
    requires forall x :: g(x) == (if f(x).Some? then Some(h(f(x).value)) else None)
    ensures MapSeq(CompactMap(s, f), h) == CompactMap(s, g)
  {
    if |s| > 0 {
      CompactMapThenMap(s[1..], f, h, g);
      var head: seq<U> := if f(s[0]).Some? then [f(s[0]).value] else [];
      assert CompactMap(s, f) == head + CompactMap(s[1..], f);
      MapSeqAppend(head, CompactMap(s[1..], f), h);
    }
  }

  /** A compactMap is repetition-free when no two present results coincide. */
  lemma {:induction false} CompactMapDistinct<T, U>(s: seq<T>, f: T -> Option<U>)
    requires forall i, j :: 0 <= i < j < |s| && f(s[i]).Some? ==> f(s[i]) != f(s[j])
    ensures Distinct(CompactMap(s, f))
  {
    if |s| > 0 {
      CompactMapDistinct(s[1..], f);
      var rest := CompactMap(s[1..], f);
      if f(s[0]).Some? {
        forall i | 0 <= i < |rest| ensures rest[i] != f(s[0]).value {
          var k :| 0 <= k < |s[1..]| && f(s[1..][k]) == Some(rest[i]);
          assert s[1..][k] == s[k + 1];
        }
        var r := [f(s[0]).value] + rest;
        forall i, j | 0 <= i < j < |r| ensures r[i] != r[j] {
          if i > 0 {
            assert r[i] == rest[i - 1] && r[j] == rest[j - 1];
          }
        }
      }
    }
  }

  /** When no two present results of `f` coincide, an element with a present result occurs at most once. */
  lemma {:induction false} InjectiveMultiplicity<T, U>(s: seq<T>, f: T -> Option<U>, x: T)
    requires forall i, j :: 0 <= i < j < |s| && f(s[i]).Some? ==> f(s[i]) != f(s[j])
    requires f(x).Some?
    ensures multiset(s)[x] <= 1
  {
    if |s| > 0 {
      assert s == [s[0]] + s[1..];
      forall i, j | 0 <= i < j < |s[1..]| && f(s[1..][i]).Some? ensures f(s[1..][i]) != f(s[1..][j]) {
        assert s[1..][i] == s[i + 1] && s[1..][j] == s[j + 1];
      }
      InjectiveMultiplicity(s[1..], f, x);
      if x == s[0] {
        assert x !in s[1..];
      }
    }
  }

  /** Reordering keeps the present results of `f` pairwise distinct. */
  lemma PermutationKeepsInjective<T, U>(a: seq<T>, b: seq<T>, f: T -> Option<U>)
    requires multiset(a) == multiset(b)
    requires forall i, j :: 0 <= i < j < |a| && f(a[i]).Some? ==> f(a[i]) != f(a[j])
    ensures forall i, j :: 0 <= i < j < |b| && f(b[i]).Some? ==> f(b[i]) != f(b[j])
  {
    forall i, j | 0 <= i < j < |b| && f(b[i]).Some? ensures f(b[i]) != f(b[j]) {
      InjectiveMultiplicity(a, f, b[i]);
      if b[i] == b[j] {
        RepeatedMultiplicity(b, i, j);
        assert false;
      }
      assert b[i] in multiset(a) && b[j] in multiset(a);
      var p :| 0 <= p < |a| && a[p] == b[i];
      var q :| 0 <= q < |a| && a[q] == b[j];
      if p < q {
        assert f(a[p]) != f(a[q]);
      } else {
        assert f(a[q]) != f(a[p]);
      }
    }
  }

  /** The first index is determined by its defining property. */
  lemma FirstIndexWhereIs<T>(s: seq<T>, p: T -> bool, k: nat)
    requires k < |s| && p(s[k])
    requires forall j :: 0 <= j < k ==> !p(s[j])
    ensures FirstIndexWhere(s, p) == Some(k)
  {
    var r := FirstIndexWhere(s, p);
    assert r.Some?;
    assert !(r.value < k);
    assert !(k < r.value);
  }
}
