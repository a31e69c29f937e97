/** Python's `list.sort(key=...)`: a stable sort. Every sort in the core has a
    numeric key; `reverse=True` keeps equal keys in their original order, so it
    is the same stable sort on the negated key. The reference definition is an
    insertion sort; the in-place method below is proved to produce it. */
module Sorting {
  import opened Common

  predicate SortedBy<T>(s: seq<T>, key: T -> real)
  {
    forall i, j :: 0 <= i < j < |s| ==> key(s[i]) <= key(s[j])
  }

  /** Inserts `x` after every element whose key is not above its own. */
  function Insert<T>(s: seq<T>, x: T, key: T -> real): (r: seq<T>)
    ensures |r| == |s| + 1
  {
    if |s| == 0 || key(s[|s| - 1]) <= key(x) then s + [x]
    else Insert(s[..|s| - 1], x, key) + [s[|s| - 1]]
  }

  function InsertionSort<T>(s: seq<T>, key: T -> real): (r: seq<T>)
    ensures |r| == |s|
  {
    if |s| == 0 then [] else Insert(InsertionSort(s[..|s| - 1], key), s[|s| - 1], key)
  }

  function KeyIs<T>(key: T -> real, k: real): T -> bool
  {
    x => key(x) == k
  }

  lemma KeyIsApplied<T>(key: T -> real, k: real, x: T)
    ensures KeyIs(key, k)(x) <==> key(x) == k
  {
  }

  /** The elements whose key is `k`, in order. */
  function KeyClass<T>(s: seq<T>, key: T -> real, k: real): seq<T>
  {
    Filter(s, KeyIs(key, k))
  }

  lemma {:induction false} InsertSorted<T>(s: seq<T>, x: T, key: T -> real)
    requires SortedBy(s, key)
    ensures SortedBy(Insert(s, x, key), key)
    ensures forall i :: 0 <= i < |s| + 1 ==> Insert(s, x, key)[i] in s + [x]
    decreases |s|
  {
    if |s| == 0 || key(s[|s| - 1]) <= key(x) {
    } else {
      var init := s[..|s| - 1];
      InsertSorted(init, x, key);
      var r := Insert(init, x, key);
      forall i | 0 <= i < |r| ensures key(r[i]) <= key(s[|s| - 1]) {
        assert r[i] in init + [x];
      }
      forall i | 0 <= i < |r| ensures r[i] in s + [x] {
        assert r[i] in init + [x];
      }
    }
  }

  lemma {:induction false} InsertPermutation<T>(s: seq<T>, x: T, key: T -> real)
    ensures multiset(Insert(s, x, key)) == multiset(s) + multiset{x}
    decreases |s|
  {
    if |s| == 0 || key(s[|s| - 1]) <= key(x) {
    } else {
      var init := s[..|s| - 1];
      InsertPermutation(init, x, key);
      assert s == init + [s[|s| - 1]];
    }
  }

  lemma {:induction false} InsertStable<T>(s: seq<T>, x: T, key: T -> real, k: real)
    ensures KeyClass(Insert(s, x, key), key, k) == KeyClass(s, key, k) + (if key(x) == k then [x] else [])
    decreases |s|
  {
    var p := KeyIs(key, k);
    if |s| == 0 || key(s[|s| - 1]) <= key(x) {
      FilterConcat(s, [x], p);
      assert [x][..0] == [];
    } else {
      var init, last := s[..|s| - 1], s[|s| - 1];
      InsertStable(init, x, key, k);
      FilterConcat(Insert(init, x, key), [last], p);
      FilterConcat(init, [last], p);
      assert s == init + [last];
      assert [last][..0] == [];
    }
  }

  /** The result is in ascending key order. */
  lemma {:induction false} SortSorted<T>(s: seq<T>, key: T -> real)
    ensures SortedBy(InsertionSort(s, key), key)
  {
    if |s| > 0 {
      SortSorted(s[..|s| - 1], key);
      InsertSorted(InsertionSort(s[..|s| - 1], key), s[|s| - 1], key);
    }
  }

  /** The result is a rearrangement of the input. */
  lemma {:induction false} SortPermutation<T>(s: seq<T>, key: T -> real)
    ensures multiset(InsertionSort(s, key)) == multiset(s)
  {
    if |s| > 0 {
      SortPermutation(s[..|s| - 1], key);
      InsertPermutation(InsertionSort(s[..|s| - 1], key), s[|s| - 1], key);
      assert s == s[..|s| - 1] + [s[|s| - 1]];
    }
  }

  /** Stability: the elements sharing any one key keep their input order. */
  lemma {:induction false} SortStable<T>(s: seq<T>, key: T -> real, k: real)
    ensures KeyClass(InsertionSort(s, key), key, k) == KeyClass(s, key, k)
  {
    if |s| > 0 {
      var init, last := s[..|s| - 1], s[|s| - 1];
      SortStable(init, key, k);
      InsertStable(InsertionSort(init, key), last, key, k);
      FilterConcat(init, [last], KeyIs(key, k));
      assert s == init + [last];
      assert [last][..0] == [];
    }
  }

  /** Sorting an already sorted list changes nothing. */
  lemma {:induction false} SortOfSorted<T>(s: seq<T>, key: T -> real)
    requires SortedBy(s, key)
    ensures InsertionSort(s, key) == s
  {
    if |s| > 0 {
      var init := s[..|s| - 1];
      assert SortedBy(init, key);
      SortOfSorted(init, key);
      assert s == init + [s[|s| - 1]];
    }
  }

  /** Sorting neither adds nor drops an element. */
  lemma SortSameElements<T>(s: seq<T>, key: T -> real)
    ensures forall i :: 0 <= i < |s| ==> s[i] in InsertionSort(s, key)
    ensures forall i :: 0 <= i < |s| ==> InsertionSort(s, key)[i] in s
  {
    var r := InsertionSort(s, key);
    SortPermutation(s, key);
    forall i | 0 <= i < |s| ensures s[i] in r && r[i] in s {
      assert s[i] in multiset(s);
      assert r[i] in multiset(r);
    }
  }

  /** The first element of the sorted list carries the least key of the input. */
  lemma SortFirstIsLeast<T>(s: seq<T>, key: T -> real)
    requires |s| > 0
    ensures InsertionSort(s, key)[0] in s
    ensures forall i :: 0 <= i < |s| ==> key(InsertionSort(s, key)[0]) <= key(s[i])
  {
    var r := InsertionSort(s, key);
    SortSorted(s, key);
    SortPermutation(s, key);
    assert r[0] in multiset(r);
    forall i | 0 <= i < |s| ensures key(r[0]) <= key(s[i]) {
      assert s[i] in multiset(s);
      var j :| 0 <= j < |r| && r[j] == s[i];
    }
  }

  /** `x` lands right after the last element whose key is not above its own. */
  lemma {:induction false} InsertPoint<T>(s: seq<T>, x: T, key: T -> real, j: nat)
    requires j <= |s|
    requires j == 0 || key(s[j - 1]) <= key(x)
    requires forall k :: j <= k < |s| ==> key(s[k]) > key(x)
    ensures Insert(s, x, key) == s[..j] + [x] + s[j..]
    decreases |s|
  {
    if |s| == j {
      assert s[..j] == s && s[j..] == [];
    } else {
      var init := s[..|s| - 1];
      InsertPoint(init, x, key, j);
      assert init[..j] == s[..j];
      assert init[j..] + [s[|s| - 1]] == s[j..];
    }
  }

  /** One insertion step: the element at index `i` moves left past every
      element of the sorted prefix `a[..i]` whose key is above its own. */
  method InsertAt<T>(a: array<T>, i: nat, key: T -> real)
    requires i < a.Length
    modifies a
    ensures a[..i + 1] == Insert(old(a[..i]), old(a[i]), key)
    ensures a[i + 1..] == old(a[i + 1..])
  {
    ghost var prefix := a[..i];
    ghost var rest := a[i + 1..];
    var x := a[i];
    var j := i;
    while j > 0 && key(a[j - 1]) > key(x)
      invariant 0 <= j <= i
      invariant forall k :: 0 <= k < j ==> a[k] == prefix[k]
      invariant forall k :: j < k <= i ==> a[k] == prefix[k - 1]
      invariant forall k :: i < k < a.Length ==> a[k] == old(a[k])
      invariant forall k :: j <= k < i ==> key(prefix[k]) > key(x)
    {
      a[j] := a[j - 1];
      j := j - 1;
    }
    a[j] := x;
    InsertPoint(prefix, x, key, j);
    ghost var r := prefix[..j] + [x] + prefix[j..];
    forall k | 0 <= k <= i
      ensures a[k] == r[k]
    {
      if k < j {
        assert r[k] == prefix[k];
      } else if k > j {
        assert r[k] == prefix[k - 1];
      }
    }
    assert a[..i + 1] == r;
    assert forall k :: 0 <= k < |rest| ==> a[i + 1..][k] == rest[k];
  }

  /** The in-place sort of the source's `list.sort`: afterwards the array holds
      the stable insertion sort of its old contents. */
  method SortInPlace<T>(a: array<T>, key: T -> real)
    modifies a
    ensures a[..] == InsertionSort(old(a[..]), key)
  {
    ghost var orig := a[..];
    var i := 0;
    while i < a.Length
      invariant 0 <= i <= a.Length
      invariant a[..i] == InsertionSort(orig[..i], key)
      invariant a[i..] == orig[i..]
    {
      assert a[i] == orig[i];
      InsertAt(a, i, key);
      assert orig[..i + 1][..i] == orig[..i];
      assert a[i + 1..] == orig[i + 1..];
      i := i + 1;
    }
    assert orig[..a.Length] == orig;
  }

  /** A fresh array holding the list, for the in-place sort of a Python list. */
  method ToArray<T>(s: seq<T>) returns (a: array<T>)
    ensures fresh(a) && a[..] == s
  {
    a := new T[|s|](i requires 0 <= i < |s| => s[i]);
  }

  /** `lst.sort(key=key)` on a local list: the list goes through an array and
      comes back in stable key order. */
  method SortList<T>(s: seq<T>, key: T -> real) returns (r: seq<T>)
    ensures r == InsertionSort(s, key)
  {
    var a := ToArray(s);
    SortInPlace(a, key);
    r := a[..];
  }
}
