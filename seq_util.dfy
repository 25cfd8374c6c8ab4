/**
 * Sequence helpers shared by the model: de-duplication in first-seen
 * order, filtering, counting and Python's stable `sorted(..., key=...)`
 * specialised to integer keys.
 */
module SeqUtil {

  predicate NoDuplicates<T(==)>(s: seq<T>)
  {
    forall i, j :: 0 <= i < j < |s| ==> s[i] != s[j]
  }

  /** The position of the first occurrence of `x` in `s`. */
  function IndexOf<T(==)>(s: seq<T>, x: T): (i: nat)
    requires x in s
    ensures i < |s| && s[i] == x
    ensures forall j :: 0 <= j < i ==> s[j] != x
  {
    if s[0] == x then 0 else 1 + IndexOf(s[1..], x)
  }

  /** Dropping the last element keeps the position of anything before it. */
  lemma IndexOfInit<T>(s: seq<T>, x: T)
    requires s != [] && x in s[..|s| - 1]
    ensures IndexOf(s, x) == IndexOf(s[..|s| - 1], x)
  {
    var p := s[..|s| - 1];
    var i := IndexOf(p, x);
    assert s[i] == p[i];
    var k := IndexOf(s, x);
    assert k <= i;
    assert s[k] == p[k];
  }

  /** An element found only at the end sits at the last position. */
  lemma IndexOfLast<T>(s: seq<T>)
    requires s != [] && s[|s| - 1] !in s[..|s| - 1]
    ensures IndexOf(s, s[|s| - 1]) == |s| - 1
  {
  }

  /** The values a map stores under `ids`, in that order: `dict.values()`
      of a dictionary whose insertion order is `ids`. */
  function ValuesOf<K, V>(m: map<K, V>, ids: seq<K>): (vs: seq<V>)
    requires forall k :: k in ids ==> k in m
    ensures |vs| == |ids|
    ensures forall i :: 0 <= i < |ids| ==> vs[i] == m[ids[i]]
  {
    if ids == [] then [] else ValuesOf(m, ids[..|ids| - 1]) + [m[ids[|ids| - 1]]]
  }

  /**
   * Each element of `s` once, in the order of first appearance: the value
   * of the Python loop that appends `x` to a list when `x` is not in a
   * `seen` set yet.
   */
  function FirstOccurrences<T(==)>(s: seq<T>): (r: seq<T>)
    ensures NoDuplicates(r)
    ensures forall i :: 0 <= i < |r| ==> r[i] in s
    ensures forall i :: 0 <= i < |s| ==> s[i] in r
  {
    if s == [] then []
    else
      var r := FirstOccurrences(s[..|s| - 1]);
      if s[|s| - 1] in r then r else r + [s[|s| - 1]]
  }

  lemma FirstOccurrencesSnoc<T>(s: seq<T>, x: T)
    ensures FirstOccurrences(s + [x])
            == if x in FirstOccurrences(s) then FirstOccurrences(s) else FirstOccurrences(s) + [x]
  {
    assert (s + [x])[..|s|] == s;
  }

  /** Extending a prefix of `s` by one element extends its first
      occurrences by that element when it is new. */
  lemma FirstOccurrencesPrefix<T>(s: seq<T>, i: nat)
    requires i < |s|
    ensures FirstOccurrences(s[..i + 1])
            == if s[i] in FirstOccurrences(s[..i]) then FirstOccurrences(s[..i]) else FirstOccurrences(s[..i]) + [s[i]]
  {
    assert s[..i + 1][..i] == s[..i];
  }

  /** `FirstOccurrences` lists its elements in the order in which they
      first appear in `s`. */
  lemma {:induction false} FirstOccurrencesOrder<T>(s: seq<T>)
    ensures forall i, j :: 0 <= i < j < |FirstOccurrences(s)| ==>
              IndexOf(s, FirstOccurrences(s)[i]) < IndexOf(s, FirstOccurrences(s)[j])
  {
    if s != [] {
      var p := s[..|s| - 1];
      FirstOccurrencesOrder(p);
      var r := FirstOccurrences(p);
      var r' := FirstOccurrences(s);
      forall i, j | 0 <= i < j < |r'|
        ensures IndexOf(s, r'[i]) < IndexOf(s, r'[j])
      {
        assert r'[i] == r[i] && r[i] in p;
        IndexOfInit(s, r[i]);
        if j < |r| {
          assert r'[j] == r[j] && r[j] in p;
          IndexOfInit(s, r[j]);
        } else {
          IndexOfLast(s);
        }
      }
    }
  }

  /** `FirstOccurrences` keeps exactly the elements of `s`, each once, in the
      order in which they first appear in `s`. */
  lemma FirstOccurrencesSpec<T>(s: seq<T>)
    ensures NoDuplicates(FirstOccurrences(s))
    ensures forall x :: x in FirstOccurrences(s) <==> x in s
    ensures forall i, j :: 0 <= i < j < |FirstOccurrences(s)| ==>
              IndexOf(s, FirstOccurrences(s)[i]) < IndexOf(s, FirstOccurrences(s)[j])
  {
    FirstOccurrencesOrder(s);
  }

  /** A duplicate-free sequence listing exactly the keys of a map is as long
      as the map. */
  lemma {:induction false} NoDuplicatesCard<K, V>(s: seq<K>, m: map<K, V>)
    requires NoDuplicates(s) && forall k :: k in m <==> k in s
    ensures |s| == |m|
  {
    if s != [] {
      var x := s[|s| - 1];
      var p := s[..|s| - 1];
      assert x !in p;
      var m' := map k | k in m && k != x :: m[k];
      assert forall k :: k in m' <==> k in p;
      NoDuplicatesCard(p, m');
      assert m.Keys == m'.Keys + {x};
    }
  }

  /** The elements of `s` for which `f` holds, in order (a comprehension
      with an `if`). */
  function Filter<T>(s: seq<T>, f: T -> bool): (r: seq<T>)
    ensures |r| <= |s|
    ensures forall x :: x in r ==> x in s && f(x)
  {
    if s == [] then []
    else Filter(s[..|s| - 1], f) + (if f(s[|s| - 1]) then [s[|s| - 1]] else [])
  }

  lemma {:induction false} FilterComplete<T>(s: seq<T>, f: T -> bool)
    ensures forall x :: x in s && f(x) ==> x in Filter(s, f)
  {
    if s != [] {
      FilterComplete(s[..|s| - 1], f);
      assert forall x :: x in s ==> x in s[..|s| - 1] || x == s[|s| - 1];
    }
  }

  lemma {:induction false} FilterAppend<T>(a: seq<T>, b: seq<T>, f: T -> bool)
    ensures Filter(a + b, f) == Filter(a, f) + Filter(b, f)
    decreases |b|
  {
    if b != [] {
      var b' := b[..|b| - 1];
      assert (a + b)[..|a + b| - 1] == a + b';
      FilterAppend(a, b', f);
    } else {
      assert a + b == a;
    }
  }

  /** The number of occurrences of `x` in `s`. */
  function Count<T(==)>(s: seq<T>, x: T): (n: nat)
    ensures n <= |s|
    ensures n > 0 <==> x in s
  {
    if s == [] then 0 else Count(s[..|s| - 1], x) + (if s[|s| - 1] == x then 1 else 0)
  }

  // ---- Stable sort by an integer key -------------------------------------

  ghost predicate SortedByKey<T>(s: seq<T>, key: T -> int)
  {
    forall i, j :: 0 <= i < j < |s| ==> key(s[i]) <= key(s[j])
  }

  /** The elements of `s` whose key is `k`, in their order in `s`. */
  function WithKey<T>(s: seq<T>, key: T -> int, k: int): seq<T>
  {
    if s == [] then []
    else WithKey(s[..|s| - 1], key, k) + (if key(s[|s| - 1]) == k then [s[|s| - 1]] else [])
  }

  lemma {:induction false} WithKeyAppend<T>(a: seq<T>, b: seq<T>, key: T -> int, k: int)
    ensures WithKey(a + b, key, k) == WithKey(a, key, k) + WithKey(b, key, k)
    decreases |b|
  {
    if b != [] {
      var b' := b[..|b| - 1];
      assert (a + b)[..|a + b| - 1] == a + b';
      WithKeyAppend(a, b', key, k);
    } else {
      assert a + b == a;
    }
  }

  /** Places `x` after every element of the sorted `r` whose key is not
      greater than `x`'s. */
  function InsertByKey<T>(r: seq<T>, x: T, key: T -> int): seq<T>
  {
    if r == [] then [x]
    else if key(r[|r| - 1]) <= key(x) then r + [x]
    else InsertByKey(r[..|r| - 1], x, key) + [r[|r| - 1]]
  }

  /** Python's `sorted(s, key=key)`: a stable ascending sort. */
  function SortByKey<T>(s: seq<T>, key: T -> int): seq<T>
  {
    if s == [] then []
    else InsertByKey(SortByKey(s[..|s| - 1], key), s[|s| - 1], key)
  }

  lemma {:induction false} InsertByKeyElements<T>(r: seq<T>, x: T, key: T -> int)
    ensures multiset(InsertByKey(r, x, key)) == multiset(r) + multiset{x}
  {
    if r != [] && key(r[|r| - 1]) > key(x) {
      var r' := r[..|r| - 1];
      assert r == r' + [r[|r| - 1]];
      InsertByKeyElements(r', x, key);
    }
  }

  lemma {:induction false} InsertByKeySorted<T>(r: seq<T>, x: T, key: T -> int)
    requires SortedByKey(r, key)
    ensures SortedByKey(InsertByKey(r, x, key), key)
  {
    if r != [] && key(r[|r| - 1]) > key(x) {
      var r' := r[..|r| - 1];
      var last := r[|r| - 1];
      assert r == r' + [last];
      InsertByKeySorted(r', x, key);
      InsertByKeyElements(r', x, key);
      var ins := InsertByKey(r', x, key);
      var res := ins + [last];
      forall i, j | 0 <= i < j < |res| ensures key(res[i]) <= key(res[j]) {
        if j == |res| - 1 {
          assert res[i] in multiset(ins);
          assert res[i] == x || res[i] in multiset(r');
          if res[i] != x {
            var m :| 0 <= m < |r'| && r'[m] == res[i];
            assert key(r[m]) <= key(r[|r| - 1]);
          }
        }
      }
    }
  }

  lemma {:induction false} InsertByKeyStable<T>(r: seq<T>, x: T, key: T -> int, k: int)
    requires SortedByKey(r, key)
    ensures WithKey(InsertByKey(r, x, key), key, k)
            == WithKey(r, key, k) + (if key(x) == k then [x] else [])
  {
    if r == [] {
    } else if key(r[|r| - 1]) <= key(x) {
      assert (r + [x])[..|r|] == r;
    } else {
      var r' := r[..|r| - 1];
      var last := r[|r| - 1];
      assert SortedByKey(r', key) by {
        forall i, j | 0 <= i < j < |r'| ensures key(r'[i]) <= key(r'[j]) {
          assert r'[i] == r[i] && r'[j] == r[j];
        }
      }
      InsertByKeyStable(r', x, key, k);
      var ins := InsertByKey(r', x, key);
      var res := ins + [last];
      assert res[..|res| - 1] == ins;
      if key(x) == k {
        assert key(last) != k;
      }
    }
  }

  /** The stable sort is ordered by key, is a permutation of its input and
      keeps the input order among elements with equal keys. */
  lemma {:induction false} SortByKeySpec<T>(s: seq<T>, key: T -> int)
    ensures |SortByKey(s, key)| == |s|
    ensures SortedByKey(SortByKey(s, key), key)
    ensures multiset(SortByKey(s, key)) == multiset(s)
    ensures forall k :: WithKey(SortByKey(s, key), key, k) == WithKey(s, key, k)
  {
    if s != [] {
      var p := s[..|s| - 1];
      assert s == p + [s[|s| - 1]];
      SortByKeySpec(p, key);
      InsertByKeyElements(SortByKey(p, key), s[|s| - 1], key);
      InsertByKeySorted(SortByKey(p, key), s[|s| - 1], key);
      forall k ensures WithKey(SortByKey(s, key), key, k) == WithKey(s, key, k) {
        InsertByKeyStable(SortByKey(p, key), s[|s| - 1], key, k);
      }
      assert |multiset(SortByKey(s, key))| == |multiset(s)|;
    }
  }
}
