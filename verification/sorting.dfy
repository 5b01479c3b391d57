/** Python's `sorted(xs, key=...)` and `xs.sort(key=...)`: a stable sort by a numeric key.
    A descending sort (`reverse=True`) keeps equal elements in their original order too,
    so it is the same stable sort by the negated key. */
module Sorting {

  /** Inserts `x` before the first element whose key is not smaller than its own. */
  function Insert<T>(x: T, s: seq<T>, key: T -> real): (r: seq<T>)
    ensures |r| == |s| + 1
  {
    if |s| == 0 || key(x) <= key(s[0]) then [x] + s
    else [s[0]] + Insert(x, s[1..], key)
  }

  /** Insertion sort from the back: each element goes in front of the elements
      after it that have the same key, which makes the sort stable. */
  function SortBy<T>(s: seq<T>, key: T -> real): (r: seq<T>)
    ensures |r| == |s|
  {
    if |s| == 0 then [] else Insert(s[0], SortBy(s[1..], key), key)
  }

  predicate Ascending<T>(s: seq<T>, key: T -> real) {
    forall i, j :: 0 <= i < j < |s| ==> key(s[i]) <= key(s[j])
  }

  /** The elements of `s` whose key is `v`, in their order in `s`. */
  function WithKey<T>(s: seq<T>, key: T -> real, v: real): (r: seq<T>)
    ensures |r| <= |s|
    ensures forall i :: 0 <= i < |r| ==> key(r[i]) == v
  {
    if |s| == 0 then []
    else (if key(s[0]) == v then [s[0]] else []) + WithKey(s[1..], key, v)
  }

  lemma {:induction false} InsertSpec<T>(x: T, s: seq<T>, key: T -> real)
    requires Ascending(s, key)
    ensures Ascending(Insert(x, s, key), key)
    ensures multiset(Insert(x, s, key)) == multiset(s) + multiset{x}
  {
    if |s| > 0 && key(x) > key(s[0]) {
      InsertSpec(x, s[1..], key);
      var t := Insert(x, s[1..], key);
      assert s == [s[0]] + s[1..];
      InsertLowerBound(x, s[1..], key, key(s[0]));
      AscendingCons(s[0], t, key);
    }
  }

  /** A lower bound of `x` and of every element of `s` bounds every element after the insertion. */
  lemma {:induction false} InsertLowerBound<T>(x: T, s: seq<T>, key: T -> real, lo: real)
    requires lo <= key(x) && forall j :: 0 <= j < |s| ==> lo <= key(s[j])
    ensures forall j :: 0 <= j < |Insert(x, s, key)| ==> lo <= key(Insert(x, s, key)[j])
  {
    var r := Insert(x, s, key);
    if |s| > 0 && key(x) > key(s[0]) {
      InsertLowerBound(x, s[1..], key, lo);
      forall j | 0 < j < |r| ensures lo <= key(r[j]) {
        assert r[j] == Insert(x, s[1..], key)[j - 1];
      }
    } else {
      forall j | 0 < j < |r| ensures lo <= key(r[j]) {
        assert r[j] == s[j - 1];
      }
    }
  }

  lemma AscendingCons<T>(h: T, t: seq<T>, key: T -> real)
    requires Ascending(t, key) && forall j :: 0 <= j < |t| ==> key(h) <= key(t[j])
    ensures Ascending([h] + t, key)
  {
    var r := [h] + t;
    forall i, j | 0 <= i < j < |r| ensures key(r[i]) <= key(r[j]) {
      assert r[j] == t[j - 1];
      if i > 0 {
        assert r[i] == t[i - 1];
      }
    }
  }

  /** The sort orders by key and rearranges without losing or adding anything. */
  lemma {:induction false} SortSpec<T>(s: seq<T>, key: T -> real)
    ensures Ascending(SortBy(s, key), key)
    ensures multiset(SortBy(s, key)) == multiset(s)
  {
    if |s| > 0 {
      SortSpec(s[1..], key);
      InsertSpec(s[0], SortBy(s[1..], key), key);
      assert s == [s[0]] + s[1..];
    }
  }

  lemma {:induction false} InsertStable<T>(x: T, s: seq<T>, key: T -> real, v: real)
    ensures WithKey(Insert(x, s, key), key, v) == (if key(x) == v then [x] else []) + WithKey(s, key, v)
  {
    if |s| > 0 && key(x) > key(s[0]) {
      InsertStable(x, s[1..], key, v);
      assert ([s[0]] + Insert(x, s[1..], key))[1..] == Insert(x, s[1..], key);
    } else {
      assert ([x] + s)[1..] == s;
    }
  }

  /** Stability: the elements that share a key keep their relative order. */
  lemma {:induction false} SortStable<T>(s: seq<T>, key: T -> real, v: real)
    ensures WithKey(SortBy(s, key), key, v) == WithKey(s, key, v)
  {
    if |s| > 0 {
      SortStable(s[1..], key, v);
      InsertStable(s[0], SortBy(s[1..], key), key, v);
    }
  }

  predicate DistinctBy<T, U(==)>(s: seq<T>, f: T -> U) {
    forall i, j :: 0 <= i < j < |s| ==> f(s[i]) != f(s[j])
  }

  lemma {:induction false} InsertDistinct<T, U>(x: T, s: seq<T>, key: T -> real, f: T -> U)
    requires DistinctBy(s, f)
    requires forall i :: 0 <= i < |s| ==> f(s[i]) != f(x)
    ensures DistinctBy(Insert(x, s, key), f)
    ensures forall i :: 0 <= i < |s| + 1 ==> Insert(x, s, key)[i] == x || Insert(x, s, key)[i] in s
  {
    if |s| > 0 && key(x) > key(s[0]) {
      InsertDistinct(x, s[1..], key, f);
      var t := Insert(x, s[1..], key);
      var r := [s[0]] + t;
      forall j | 0 < j < |r| ensures f(r[0]) != f(r[j]) {
        assert r[j] == t[j - 1];
        if r[j] != x {
          var m :| 0 <= m < |s[1..]| && s[1..][m] == r[j];
          assert s[1..][m] == s[m + 1];
        }
      }
      forall i | 0 <= i < |r| ensures r[i] == x || r[i] in s {
        if i > 0 {
          assert r[i] == t[i - 1];
        }
      }
    }
  }

  /** Elements that are distinct in `f` stay distinct in `f` after sorting. */
  lemma {:induction false} SortKeepsDistinct<T, U>(s: seq<T>, key: T -> real, f: T -> U)
    requires DistinctBy(s, f)
    ensures DistinctBy(SortBy(s, key), f)
    ensures forall i :: 0 <= i < |s| ==> SortBy(s, key)[i] in s
  {
    if |s| > 0 {
      SortKeepsDistinct(s[1..], key, f);
      var t := SortBy(s[1..], key);
      forall i | 0 <= i < |t| ensures f(t[i]) != f(s[0]) {
        var m :| 0 <= m < |s[1..]| && s[1..][m] == t[i];
        assert s[1..][m] == s[m + 1];
      }
      InsertDistinct(s[0], t, key, f);
      forall i | 0 <= i < |s| ensures SortBy(s, key)[i] in s {
        if SortBy(s, key)[i] != s[0] {
          var m :| 0 <= m < |s[1..]| && s[1..][m] == SortBy(s, key)[i];
          assert s[1..][m] == s[m + 1];
        }
      }
    }
  }
}
