/** Array.prototype.sort with a numeric comparator `(a, b) => key(a) - key(b)`
    (keys are JavaScript numbers, modelled as reals). Since ECMAScript 2019
    that sort is required to be stable, so it is modelled by a stable
    insertion sort: each element is inserted after every element whose key is
    not larger. */
module StableSort {
  import opened Base

  predicate SortedBy<T>(s: seq<T>, key: T -> real) {
    forall i, j :: 0 <= i < j < |s| ==> key(s[i]) <= key(s[j])
  }

  function InsertBy<T>(x: T, s: seq<T>, key: T -> real): (r: seq<T>)
    ensures |r| == |s| + 1
    ensures multiset(r) == multiset(s) + multiset{x}
  {
    if s == [] then [x]
    else if key(s[|s| - 1]) <= key(x) then s + [x]
    else
      assert s == s[..|s| - 1] + [s[|s| - 1]];
      InsertBy(x, s[..|s| - 1], key) + [s[|s| - 1]]
  }

  function SortBy<T>(s: seq<T>, key: T -> real): (r: seq<T>)
    ensures |r| == |s|
  {
    if s == [] then [] else InsertBy(s[|s| - 1], SortBy(s[..|s| - 1], key), key)
  }

  /** The elements of `s` whose key is `k`, in their order in `s`. */
  function WithKey<T>(s: seq<T>, k: real, key: T -> real): seq<T> {
    if s == [] then []
    else WithKey(s[..|s| - 1], k, key) + (if key(s[|s| - 1]) == k then [s[|s| - 1]] else [])
  }

  lemma {:induction false} InsertSorted<T>(x: T, s: seq<T>, key: T -> real)
    requires SortedBy(s, key)
    ensures SortedBy(InsertBy(x, s, key), key)
  {
    if s != [] && key(s[|s| - 1]) > key(x) {
      var init := s[..|s| - 1];
      var last := s[|s| - 1];
      InsertSorted(x, init, key);
      var r := InsertBy(x, init, key);
      forall e | e in r ensures key(e) <= key(last) {
        assert e in multiset(r);
        if e != x {
          assert e in multiset(init);
        }
      }
      forall i, j | 0 <= i < j < |r| + 1 ensures key((r + [last])[i]) <= key((r + [last])[j]) {
        if j == |r| {
          assert (r + [last])[i] == r[i];
          assert r[i] in r;
        }
      }
    }
  }

  /** The sort yields a list ordered by key. */
  lemma {:induction false} SortIsSorted<T>(s: seq<T>, key: T -> real)
    ensures SortedBy(SortBy(s, key), key)
  {
    if s != [] {
      SortIsSorted(s[..|s| - 1], key);
      InsertSorted(s[|s| - 1], SortBy(s[..|s| - 1], key), key);
    }
  }

  /** The sort neither drops nor duplicates an element. */
  lemma {:induction false} SortIsPermutation<T>(s: seq<T>, key: T -> real)
    ensures multiset(SortBy(s, key)) == multiset(s)
  {
    if s != [] {
      SortIsPermutation(s[..|s| - 1], key);
      assert s == s[..|s| - 1] + [s[|s| - 1]];
    }
  }

  lemma {:induction false} InsertWithKey<T>(x: T, s: seq<T>, k: real, key: T -> real)
    ensures WithKey(InsertBy(x, s, key), k, key)
         == WithKey(s, k, key) + (if key(x) == k then [x] else [])
  {
    var r := InsertBy(x, s, key);
    if s == [] {
      assert r[..0] == [];
    } else if key(s[|s| - 1]) <= key(x) {
      assert r[..|r| - 1] == s;
    } else {
      var init := s[..|s| - 1];
      var last := s[|s| - 1];
      InsertWithKey(x, init, k, key);
      assert r[..|r| - 1] == InsertBy(x, init, key);
      assert key(last) != key(x);
    }
  }

  /** Stability: for every key value, the elements carrying it keep their
      relative order. */
  lemma {:induction false} SortIsStable<T>(s: seq<T>, k: real, key: T -> real)
    ensures WithKey(SortBy(s, key), k, key) == WithKey(s, k, key)
  {
    if s != [] {
      SortIsStable(s[..|s| - 1], k, key);
      InsertWithKey(s[|s| - 1], SortBy(s[..|s| - 1], key), k, key);
    }
  }

  /** Sorting a list that is already ordered leaves it unchanged. */
  lemma {:induction false} SortOfSortedIsIdentity<T>(s: seq<T>, key: T -> real)
    requires SortedBy(s, key)
    ensures SortBy(s, key) == s
  {
    if s != [] {
      var init := s[..|s| - 1];
      assert SortedBy(init, key);
      SortOfSortedIsIdentity(init, key);
      if init != [] {
        assert key(init[|init| - 1]) <= key(s[|s| - 1]);
      }
      assert init + [s[|s| - 1]] == s;
    }
  }

  predicate StrictlySortedBy<T>(s: seq<T>, key: T -> real) {
    forall i, j :: 0 <= i < j < |s| ==> key(s[i]) < key(s[j])
  }

  lemma {:induction false} InsertStrictlySorted<T>(x: T, s: seq<T>, key: T -> real)
    requires StrictlySortedBy(s, key)
    requires forall e :: e in s ==> key(e) != key(x)
    ensures StrictlySortedBy(InsertBy(x, s, key), key)
  {
    if s != [] && key(s[|s| - 1]) > key(x) {
      var init := s[..|s| - 1];
      var last := s[|s| - 1];
      assert s == init + [last];
      InsertStrictlySorted(x, init, key);
      var r := InsertBy(x, init, key);
      InsertedBelow(x, init, key, key(last));
      AppendAboveStrictly(r, last, key);
    }
  }

  /** Inserting an element below a bound into elements below it keeps every
      element below it. */
  lemma InsertedBelow<T>(x: T, s: seq<T>, key: T -> real, bound: real)
    requires key(x) < bound && forall i :: 0 <= i < |s| ==> key(s[i]) < bound
    ensures forall i :: 0 <= i < |InsertBy(x, s, key)| ==> key(InsertBy(x, s, key)[i]) < bound
  {
    var r := InsertBy(x, s, key);
    forall i | 0 <= i < |r| ensures key(r[i]) < bound {
      assert r[i] in multiset(r);
      if r[i] != x {
        assert r[i] in multiset(s);
        var j :| 0 <= j < |s| && s[j] == r[i];
      }
    }
  }

  /** An element above all of a strictly ascending sequence extends it. */
  lemma AppendAboveStrictly<T>(r: seq<T>, last: T, key: T -> real)
    requires StrictlySortedBy(r, key) && forall i :: 0 <= i < |r| ==> key(r[i]) < key(last)
    ensures StrictlySortedBy(r + [last], key)
  {
    forall i, j | 0 <= i < j < |r| + 1 ensures key((r + [last])[i]) < key((r + [last])[j]) {
      assert (r + [last])[i] == r[i];
      if j < |r| {
        assert (r + [last])[j] == r[j];
      }
    }
  }

  /** Sorting elements whose keys are pairwise different yields strictly
      ascending keys. */
  lemma {:induction false} SortIsStrictlySorted<T>(s: seq<T>, key: T -> real)
    requires forall i, j :: 0 <= i < j < |s| ==> key(s[i]) != key(s[j])
    ensures StrictlySortedBy(SortBy(s, key), key)
  {
    if s != [] {
      var init := s[..|s| - 1];
      var last := s[|s| - 1];
      SortIsStrictlySorted(init, key);
      var sorted := SortBy(init, key);
      SortIsPermutation(init, key);
      forall e | e in sorted ensures key(e) != key(last) {
        assert e in multiset(init);
      }
      InsertStrictlySorted(last, sorted, key);
    }
  }

  /** Filtering a sorted sequence leaves it sorted. */
  lemma {:induction false} FilterKeepsSorted<T>(s: seq<T>, p: T -> bool, key: T -> real)
    requires SortedBy(s, key)
    ensures SortedBy(Filter(s, p), key)
  {
    if s != [] {
      var init := s[..|s| - 1];
      var last := s[|s| - 1];
      FilterKeepsSorted(init, p, key);
      var r := Filter(init, p);
      if p(last) {
        forall i, j | 0 <= i < j < |r| + 1 ensures key((r + [last])[i]) <= key((r + [last])[j]) {
          if j == |r| {
            assert (r + [last])[i] == r[i] && r[i] in init;
          }
        }
      }
    }
  }
}
