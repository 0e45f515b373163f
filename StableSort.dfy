/**
 * `Array.prototype.sort` with a numeric comparator `(a, b) => key(a) - key(b)`.
 * Since ECMAScript 2019 that sort is required to be stable, so its result is
 * fixed: the permutation that is non-decreasing by key and keeps equal keys in
 * input order. `SortBy` computes it by insertion, and `StableSortIsUnique`
 * shows that any sequence with those two properties is `SortBy`'s result.
 */
module StableSort {
  import opened Seqs

  /** Non-decreasing by `key`. */
  predicate SortedBy<T>(s: seq<T>, key: T -> int)
  {
    forall i, j :: 0 <= i < j < |s| ==> key(s[i]) <= key(s[j])
  }

  /** The predicate "has key `v`": filtering by it lists one class of equal keys. */
  function KeyIs<T>(key: T -> int, v: int): T -> bool
  {
    x => key(x) == v
  }

  /** Places `x` in front of the first element whose key is not smaller than its own. */
  function Insert<T>(x: T, s: seq<T>, key: T -> int): (r: seq<T>)
    ensures |r| == |s| + 1
  {
    if s == [] then [x]
    else if key(x) <= key(s[0]) then [x] + s
    else [s[0]] + Insert(x, s[1..], key)
  }

  /** Inserting adds one copy of `x` and keeps everything else. */
  lemma {:induction false} InsertPermutes<T>(x: T, s: seq<T>, key: T -> int)
    ensures multiset(Insert(x, s, key)) == multiset(s) + multiset{x}
  {
    if s != [] && key(x) > key(s[0]) {
      InsertPermutes(x, s[1..], key);
      assert s == [s[0]] + s[1..];
    }
  }

  /** A bound below `x` and below every element of `s` stays below every element after inserting `x`. */
  lemma {:induction false} InsertLowerBound<T>(x: T, s: seq<T>, key: T -> int, b: int)
    requires b <= key(x) && forall i :: 0 <= i < |s| ==> b <= key(s[i])
    ensures forall j :: 0 <= j < |Insert(x, s, key)| ==> b <= key(Insert(x, s, key)[j])
  {
    if s != [] && key(x) > key(s[0]) {
      InsertLowerBound(x, s[1..], key, b);
      var rest := Insert(x, s[1..], key);
      assert Insert(x, s, key) == [s[0]] + rest;
      assert forall i :: 0 <= i < |s[1..]| ==> s[1..][i] == s[i + 1];
    }
  }

  /** A sorted sequence behind an element with the least key is sorted. */
  lemma SortedCons<T>(h: T, t: seq<T>, key: T -> int)
    requires SortedBy(t, key) && forall j :: 0 <= j < |t| ==> key(h) <= key(t[j])
    ensures SortedBy([h] + t, key)
  {
    var r := [h] + t;
    forall i, j | 0 <= i < j < |r| ensures key(r[i]) <= key(r[j]) {
      assert r[j] == t[j - 1];
      if i > 0 {
        assert r[i] == t[i - 1];
      }
    }
  }

  /** The rest of a sorted sequence is sorted, and no key in it is below the first. */
  lemma SortedTail<T>(s: seq<T>, key: T -> int)
    requires SortedBy(s, key) && s != []
    ensures SortedBy(s[1..], key)
    ensures forall j :: 0 <= j < |s[1..]| ==> key(s[0]) <= key(s[1..][j])
  {
    assert forall i :: 0 <= i < |s| - 1 ==> s[1..][i] == s[i + 1];
  }

  lemma {:induction false} InsertSorted<T>(x: T, s: seq<T>, key: T -> int)
    requires SortedBy(s, key)
    ensures SortedBy(Insert(x, s, key), key)
  {
    if s == [] {
      assert Insert(x, s, key) == [x];
    } else if key(x) <= key(s[0]) {
      SortedTail(s, key);
      SortedCons(x, s, key);
    } else {
      SortedTail(s, key);
      InsertSorted(x, s[1..], key);
      InsertLowerBound(x, s[1..], key, key(s[0]));
      SortedCons(s[0], Insert(x, s[1..], key), key);
    }
  }

  /** The stable sort of `s` by `key`. */
  function SortBy<T>(s: seq<T>, key: T -> int): (r: seq<T>)
    ensures multiset(r) == multiset(s)
    ensures SortedBy(r, key)
  {
    if s == [] then []
    else
      assert s == [s[0]] + s[1..];
      InsertSorted(s[0], SortBy(s[1..], key), key);
      InsertPermutes(s[0], SortBy(s[1..], key), key);
      Insert(s[0], SortBy(s[1..], key), key)
  }

  /** Two elements out of order are swapped. */
  lemma SortTwo<T>(x: T, y: T, key: T -> int)
    requires key(y) < key(x)
    ensures SortBy([x, y], key) == [y, x]
  {
    assert [x, y][1..] == [y];
    assert [y][1..] == [];
    assert SortBy([y], key) == [y];
    assert Insert(x, [], key) == [x];
  }

  lemma {:induction false} InsertKeepsClasses<T>(x: T, s: seq<T>, key: T -> int, v: int)
    ensures Filter(Insert(x, s, key), KeyIs(key, v))
         == (if key(x) == v then [x] else []) + Filter(s, KeyIs(key, v))
  {
    var p := KeyIs(key, v);
    if s == [] {
      assert Insert(x, s, key) == [x] + [];
      FilterCons(x, [], p);
    } else if key(x) <= key(s[0]) {
      assert Insert(x, s, key) == [x] + s;
      FilterCons(x, s, p);
    } else {
      var rest := Insert(x, s[1..], key);
      assert Insert(x, s, key) == [s[0]] + rest;
      FilterCons(s[0], rest, p);
      InsertKeepsClasses(x, s[1..], key, v);
      assert s == [s[0]] + s[1..];
      FilterCons(s[0], s[1..], p);
      var fx := if key(x) == v then [x] else [];
      var f0 := if key(s[0]) == v then [s[0]] else [];
      var t := Filter(s[1..], p);
      // `x` only overtakes elements with a smaller key, so never one of its own class
      assert fx == [] || f0 == [];
      assert f0 + (fx + t) == fx + (f0 + t);
    }
  }

  /** Stability: the elements of each key keep their input order. */
  lemma {:induction false} SortByIsStable<T>(s: seq<T>, key: T -> int, v: int)
    ensures Filter(SortBy(s, key), KeyIs(key, v)) == Filter(s, KeyIs(key, v))
  {
    if s != [] {
      SortByIsStable(s[1..], key, v);
      InsertKeepsClasses(s[0], SortBy(s[1..], key), key, v);
    }
  }

  /** Agreeing on every class, two sequences are both empty or both not. */
  lemma ClassesAgreeEmpty<T>(a: seq<T>, b: seq<T>, key: T -> int)
    requires forall v :: Filter(a, KeyIs(key, v)) == Filter(b, KeyIs(key, v))
    ensures a == [] <==> b == []
  {
    if a != [] {
      assert Filter(a, KeyIs(key, key(a[0])))[0] == a[0];
    }
    if b != [] {
      assert Filter(b, KeyIs(key, key(b[0])))[0] == b[0];
    }
  }

  /** In a sorted sequence the first element has the least key. */
  lemma SortedHeadLeast<T>(b: seq<T>, key: T -> int, x: T)
    requires SortedBy(b, key) && x in b
    ensures key(b[0]) <= key(x)
  {
  }

  /** Sorted sequences that agree on every class start with the same element. */
  lemma SortedClassesSameHead<T>(a: seq<T>, b: seq<T>, key: T -> int)
    requires SortedBy(a, key) && SortedBy(b, key) && a != [] && b != []
    requires forall v :: Filter(a, KeyIs(key, v)) == Filter(b, KeyIs(key, v))
    ensures a[0] == b[0]
  {
    var k, m := key(a[0]), key(b[0]);
    var pk, pm := KeyIs(key, k), KeyIs(key, m);
    FilterMembership(a, pk, a[0]);
    FilterMembership(b, pk, a[0]);
    assert Filter(a, pk) == Filter(b, pk);
    SortedHeadLeast(b, key, a[0]);
    FilterMembership(b, pm, b[0]);
    FilterMembership(a, pm, b[0]);
    assert Filter(a, pm) == Filter(b, pm);
    SortedHeadLeast(a, key, b[0]);
    assert Filter(a, pk)[0] == a[0];
    assert Filter(b, pk)[0] == b[0];
  }

  /** Removing a common first element keeps a class filter equal. */
  lemma TailsAgree<T>(a: seq<T>, b: seq<T>, p: T -> bool)
    requires a != [] && b != [] && a[0] == b[0] && Filter(a, p) == Filter(b, p)
    ensures Filter(a[1..], p) == Filter(b[1..], p)
  {
    var head := if p(a[0]) then [a[0]] else [];
    assert Filter(a[1..], p) == Filter(a, p)[|head|..];
    assert Filter(b[1..], p) == Filter(b, p)[|head|..];
  }

  /** Two sequences sorted by `key` that agree on every class of equal keys are equal. */
  lemma {:induction false} SortedClassesDetermine<T>(a: seq<T>, b: seq<T>, key: T -> int)
    requires SortedBy(a, key) && SortedBy(b, key)
    requires forall v :: Filter(a, KeyIs(key, v)) == Filter(b, KeyIs(key, v))
    ensures a == b
    decreases |a|
  {
    ClassesAgreeEmpty(a, b, key);
    if a != [] {
      SortedClassesSameHead(a, b, key);
      forall v ensures Filter(a[1..], KeyIs(key, v)) == Filter(b[1..], KeyIs(key, v)) {
        TailsAgree(a, b, KeyIs(key, v));
      }
      assert SortedBy(a[1..], key) && SortedBy(b[1..], key) by {
        assert forall i :: 0 <= i < |a| - 1 ==> a[1..][i] == a[i + 1];
        assert forall i :: 0 <= i < |b| - 1 ==> b[1..][i] == b[i + 1];
      }
      SortedClassesDetermine(a[1..], b[1..], key);
      assert a == [a[0]] + a[1..] && b == [b[0]] + b[1..];
    }
  }

  /**
   * Whatever algorithm an engine uses, a stable sort of `s` by `key` returns
   * exactly `SortBy(s, key)`.
   */
  lemma StableSortIsUnique<T>(s: seq<T>, r: seq<T>, key: T -> int)
    requires SortedBy(r, key)
    requires forall v :: Filter(r, KeyIs(key, v)) == Filter(s, KeyIs(key, v))
    ensures r == SortBy(s, key)
  {
    forall v ensures Filter(r, KeyIs(key, v)) == Filter(SortBy(s, key), KeyIs(key, v)) {
      SortByIsStable(s, key, v);
    }
    SortedClassesDetermine(r, SortBy(s, key), key);
  }
}
