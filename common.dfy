/** Shared vocabulary of the model: optional values, the list operations the
    Python code uses (comprehension filters, slices, sums), Python's `round`
    and `int()` on exact reals, and the sum of the values of a dictionary. */
module Common {

  datatype Option<+T> = None | Some(value: T)

  datatype Result<+T> = Ok(value: T) | Err(error: string)

  function Abs(x: real): (r: real)
    ensures r >= 0.0 && (r == x || r == -x)
  {
    if x < 0.0 then -x else x
  }

  function Min(a: int, b: int): (r: int)
    ensures r <= a && r <= b && (r == a || r == b)
  {
    if a <= b then a else b
  }

  /** A comprehension filter `[x for x in s if p(x)]`. */
  function Filter<T>(s: seq<T>, p: T -> bool): (r: seq<T>)
    ensures |r| <= |s|
  {
    if |s| == 0 then []
    else if p(s[|s| - 1]) then Filter(s[..|s| - 1], p) + [s[|s| - 1]]
    else Filter(s[..|s| - 1], p)
  }

  /** The filter keeps exactly the elements that satisfy the predicate. */
  lemma {:induction false} FilterMembers<T>(s: seq<T>, p: T -> bool)
    ensures forall i :: 0 <= i < |Filter(s, p)| ==> Filter(s, p)[i] in s && p(Filter(s, p)[i])
    ensures forall i :: 0 <= i < |s| && p(s[i]) ==> s[i] in Filter(s, p)
  {
    if |s| > 0 {
      FilterMembers(s[..|s| - 1], p);
      var r := Filter(s, p);
      forall i | 0 <= i < |r| ensures r[i] in s && p(r[i]) {
        if i < |Filter(s[..|s| - 1], p)| {
          assert r[i] == Filter(s[..|s| - 1], p)[i];
          assert r[i] in s[..|s| - 1];
        }
      }
      forall i | 0 <= i < |s| && p(s[i]) ensures s[i] in r {
        if i < |s| - 1 {
          assert s[i] == s[..|s| - 1][i];
        }
      }
    }
  }

  /** Filtering one more element appends it when it passes. */
  lemma FilterStep<T>(s: seq<T>, x: T, p: T -> bool)
    ensures Filter(s + [x], p) == Filter(s, p) + (if p(x) then [x] else [])
  {
    assert (s + [x])[..|s|] == s;
  }

  /** `len([x for x in s if p(x)])` */
  function Count<T>(s: seq<T>, p: T -> bool): nat
  {
    |Filter(s, p)|
  }

  lemma {:induction false} FilterConcat<T>(a: seq<T>, b: seq<T>, p: T -> bool)
    ensures Filter(a + b, p) == Filter(a, p) + Filter(b, p)
    decreases |b|
  {
    if |b| == 0 {
      assert a + b == a;
    } else {
      var last := b[|b| - 1];
      assert (a + b)[..|a + b| - 1] == a + b[..|b| - 1];
      FilterConcat(a, b[..|b| - 1], p);
    }
  }

  /** A filter keeps everything when the predicate holds of every element. */
  lemma {:induction false} FilterAll<T>(s: seq<T>, p: T -> bool)
    requires forall i :: 0 <= i < |s| ==> p(s[i])
    ensures Filter(s, p) == s
  {
    if |s| > 0 {
      FilterAll(s[..|s| - 1], p);
    }
  }

  /** A filter keeps nothing when the predicate holds of no element. */
  lemma {:induction false} FilterNone<T>(s: seq<T>, p: T -> bool)
    requires forall i :: 0 <= i < |s| ==> !p(s[i])
    ensures Filter(s, p) == []
  {
    if |s| > 0 {
      FilterNone(s[..|s| - 1], p);
    }
  }

  /** Elements before which the filter keeps nothing do not change it. */
  lemma FilterAfterNone<T>(a: seq<T>, b: seq<T>, p: T -> bool)
    requires Filter(a, p) == []
    ensures Filter(a + b, p) == Filter(b, p)
  {
    FilterConcat(a, b, p);
    assert [] + Filter(b, p) == Filter(b, p);
  }

  /** Filters by two predicates that agree on the elements give the same list. */
  lemma {:induction false} FilterEquivalent<T>(s: seq<T>, p: T -> bool, q: T -> bool)
    requires forall i :: 0 <= i < |s| ==> p(s[i]) == q(s[i])
    ensures Filter(s, p) == Filter(s, q)
  {
    if |s| > 0 {
      FilterEquivalent(s[..|s| - 1], p, q);
    }
  }

  /** Three predicates that pick exactly one of them for every element split
      the sequence: their counts add up to its length. */
  lemma {:induction false} PartitionCount<T>(s: seq<T>, p: T -> bool, q: T -> bool, r: T -> bool)
    requires forall x :: (p(x) && !q(x) && !r(x)) || (!p(x) && q(x) && !r(x)) || (!p(x) && !q(x) && r(x))
    ensures Count(s, p) + Count(s, q) + Count(s, r) == |s|
  {
    if |s| > 0 {
      PartitionCount(s[..|s| - 1], p, q, r);
    }
  }

  /** Deleting the element at `j` takes one copy of it out of the multiset. */
  lemma DeleteMultiset<T>(s: seq<T>, j: nat)
    requires j < |s|
    ensures s[j] in multiset(s)
    ensures multiset(s[..j] + s[j + 1..]) == multiset(s) - multiset{s[j]}
  {
    assert s == s[..j] + [s[j]] + s[j + 1..];
  }

  /** The multiset of a non-empty sequence is that of its prefix plus its last element. */
  lemma LastMultiset<T>(s: seq<T>)
    requires |s| > 0
    ensures s[|s| - 1] in multiset(s)
    ensures multiset(s) == multiset(s[..|s| - 1]) + multiset{s[|s| - 1]}
    ensures multiset(s[..|s| - 1]) == multiset(s) - multiset{s[|s| - 1]}
  {
    assert s == s[..|s| - 1] + [s[|s| - 1]];
  }

  /** Taking one copy out and putting it back restores the multiset. */
  lemma PutBack<T>(m: multiset<T>, v: T)
    requires v in m
    ensures m - multiset{v} + multiset{v} == m
  {
  }

  /** An index at which a member of the sequence occurs. */
  ghost function IndexOf<T>(s: seq<T>, x: T): (j: nat)
    requires x in multiset(s)
    ensures j < |s| && s[j] == x
  {
    assert x in s;
    var j :| 0 <= j < |s| && s[j] == x; j
  }

  /** Only the empty sequence has an empty multiset. */
  lemma EmptyMultiset<T>(s: seq<T>)
    requires multiset(s) == multiset{}
    ensures s == []
  {
    assert |s| == |multiset(s)|;
  }

  /** `part / whole * 100`, or the stated fallback when `whole` is not positive. */
  function Percent(part: int, whole: int, otherwise: real): (r: real)
    ensures whole > 0 && 0 <= part <= whole ==> 0.0 <= r <= 100.0
    ensures whole > 0 && part == whole ==> r == 100.0
    ensures whole <= 0 ==> r == otherwise
  {
    if whole > 0 then part as real / whole as real * 100.0 else otherwise
  }

  /** The slice `s[:n]`. */
  function Take<T>(s: seq<T>, n: nat): (r: seq<T>)
    ensures |r| == Min(n, |s|)
    ensures forall i :: 0 <= i < |r| ==> r[i] == s[i]
  {
    if n <= |s| then s[..n] else s
  }

  lemma MulPositive(x: real, y: real)
    requires x > 0.0 && y > 0.0
    ensures x * y > 0.0
  {
  }

  function Square(e: real): real
  {
    e * e
  }

  /** Squaring is strictly increasing on the non-negative reals. */
  lemma SquareLess(x: real, y: real)
    requires 0.0 <= x < y
    ensures Square(x) < Square(y)
  {
    MulPositive(y - x, y + x);
    assert (y - x) * (y + x) == y * y - x * x;
  }

  lemma SquareAbs(d: real)
    ensures Square(Abs(d)) == Square(d)
  {
    if d < 0.0 {
      assert (-d) * (-d) == d * d;
    }
  }

  lemma SquarePositive(e: real)
    ensures Square(e) >= 0.0
    ensures e != 0.0 ==> Square(e) > 0.0
  {
    if e != 0.0 {
      SquareLess(0.0, Abs(e));
      SquareAbs(e);
    }
  }

  /** The integer nearest to `y`, ties going to the even neighbour: Python's
      rounding rule, applied to the exact value. */
  function RoundHalfEven(y: real): (r: int)
    ensures y - 0.5 <= r as real <= y + 0.5
  {
    var f := y.Floor;
    var d := y - f as real;
    if d < 0.5 then f
    else if d > 0.5 then f + 1
    else if f % 2 == 0 then f
    else f + 1
  }

  /** Python's `round(x, 1)` on the exact value of `x`. */
  function Round1(x: real): real
  {
    RoundHalfEven(x * 10.0) as real / 10.0
  }

  /** Python's `round(x, 2)` on the exact value of `x`. */
  function Round2(x: real): real
  {
    RoundHalfEven(x * 100.0) as real / 100.0
  }

  /** The rounded value is within half a unit of the last kept decimal. */
  lemma RoundClose(x: real)
    ensures -0.05 <= Round1(x) - x <= 0.05
    ensures -0.005 <= Round2(x) - x <= 0.005
  {
  }

  /** Rounding keeps a percentage a percentage. */
  lemma RoundWithin(x: real)
    requires 0.0 <= x <= 100.0
    ensures 0.0 <= Round1(x) <= 100.0
    ensures 0.0 <= Round2(x) <= 100.0
  {
    assert 0 <= RoundHalfEven(x * 10.0) <= 1000;
    assert 0 <= RoundHalfEven(x * 100.0) <= 10000;
  }

  /** Rounding an integer value gives it back. */
  lemma RoundInteger(k: int)
    ensures Round1(k as real) == k as real
    ensures Round2(k as real) == k as real
  {
    assert (k as real * 10.0).Floor == 10 * k;
    assert (k as real * 100.0).Floor == 100 * k;
  }

  /** Python's `int(x)`: truncation toward zero. */
  function Trunc(x: real): (r: int)
    ensures x >= 0.0 ==> r >= 0 && r as real <= x < r as real + 1.0
    ensures x < 0.0 ==> r <= 0 && r as real - 1.0 < x <= r as real
  {
    if x >= 0.0 then x.Floor else -((-x).Floor)
  }

  /** Some key of a non-empty dictionary. */
  ghost function AnyKey<K>(m: map<K, nat>): (k: K)
    requires |m| > 0
    ensures k in m
  {
    var k :| k in m; k
  }

  /** The sum of the values of a dictionary. */
  ghost function SumValues<K>(m: map<K, nat>): nat
    decreases |m|
  {
    if |m| == 0 then 0
    else
      var k := AnyKey(m);
      m[k] + SumValues(m - {k})
  }

  /** Any key can be taken out first. */
  lemma {:induction false} SumValuesRemove<K>(m: map<K, nat>, k: K)
    requires k in m
    ensures SumValues(m) == m[k] + SumValues(m - {k})
    decreases |m|
  {
    var k' := AnyKey(m);
    if k' != k {
      RemoveTwo(m, k, k');
      SumValuesRemove(m - {k'}, k);
      SumValuesRemove(m - {k}, k');
    }
  }

  /** Two distinct keys can be removed in either order. */
  lemma RemoveTwo<K>(m: map<K, nat>, k: K, k': K)
    requires k in m && k' in m && k != k'
    ensures |m - {k}| == |m| - 1 && |m - {k'}| == |m| - 1
    ensures k in m - {k'} && k' in m - {k}
    ensures (m - {k'})[k] == m[k] && (m - {k})[k'] == m[k']
    ensures m - {k'} - {k} == m - {k} - {k'}
  {
  }

  /** Setting the value of a key changes the sum by the difference. */
  lemma SumValuesUpdate<K>(m: map<K, nat>, k: K, v: nat)
    ensures k in m ==> SumValues(m[k := v]) + m[k] == SumValues(m) + v
    ensures k !in m ==> SumValues(m[k := v]) == SumValues(m) + v
  {
    if k in m {
      SumValuesReplace(m, k, v);
    } else {
      SumValuesAdd(m, k, v);
    }
  }

  lemma SumValuesReplace<K>(m: map<K, nat>, k: K, v: nat)
    requires k in m
    ensures SumValues(m[k := v]) + m[k] == SumValues(m) + v
  {
    var m' := m[k := v];
    SumValuesRemove(m', k);
    SumValuesRemove(m, k);
    SameWithout(m, m', k);
  }

  lemma SumValuesAdd<K>(m: map<K, nat>, k: K, v: nat)
    requires k !in m
    ensures SumValues(m[k := v]) == SumValues(m) + v
  {
    SumValuesRemove(m[k := v], k);
    RemoveAdded(m, k, v);
  }

  lemma RemoveAdded<K>(m: map<K, nat>, k: K, v: nat)
    requires k !in m
    ensures m[k := v] - {k} == m
  {
  }

  lemma SameWithout<K>(m: map<K, nat>, m': map<K, nat>, k: K)
    requires forall j :: j in m && j != k ==> j in m' && m'[j] == m[j]
    requires forall j :: j in m' && j != k ==> j in m
    ensures m' - {k} == m - {k}
  {
  }

  /** `[f(x) for x in s if f(x) is not None]`: a filter and a map in one pass,
      the shape of every loop that appends a record for some elements. */
  function Collect<T, U>(s: seq<T>, f: T -> Option<U>): (r: seq<U>)
    ensures |r| <= |s|
  {
    if |s| == 0 then []
    else Collect(s[..|s| - 1], f) + (if f(s[|s| - 1]).Some? then [f(s[|s| - 1]).value] else [])
  }

  /** The list of the value an option holds, if any. */
  function AsList<U>(o: Option<U>): seq<U>
  {
    if o.Some? then [o.value] else []
  }

  lemma CollectStep<T, U>(s: seq<T>, x: T, f: T -> Option<U>)
    ensures Collect(s + [x], f) == Collect(s, f) + AsList(f(x))
  {
    assert (s + [x])[..|s|] == s;
  }

  /** One more element of a prefix adds what `f` yields on it. */
  lemma CollectPrefix<T, U>(s: seq<T>, k: nat, f: T -> Option<U>)
    requires k < |s|
    ensures Collect(s[..k + 1], f) == Collect(s[..k], f) + AsList(f(s[k]))
  {
    assert s[..k + 1] == s[..k] + [s[k]];
    CollectStep(s[..k], s[k], f);
  }

  /** The collected values are exactly the values `f` yields on the input. */
  lemma {:induction false} CollectMembers<T, U>(s: seq<T>, f: T -> Option<U>, u: U)
    ensures u in Collect(s, f) <==> exists i :: 0 <= i < |s| && f(s[i]) == Some(u)
  {
    if |s| > 0 {
      var init := s[..|s| - 1];
      CollectMembers(init, f, u);
      if exists i :: 0 <= i < |init| && f(init[i]) == Some(u) {
        var i :| 0 <= i < |init| && f(init[i]) == Some(u);
        assert f(s[i]) == Some(u);
      }
      if exists i :: 0 <= i < |s| && f(s[i]) == Some(u) {
        var i :| 0 <= i < |s| && f(s[i]) == Some(u);
        if i < |init| {
          assert f(init[i]) == Some(u);
        }
      }
    }
  }

  /** One value is collected per element on which `f` yields one. */
  lemma {:induction false} CollectLength<T, U>(s: seq<T>, f: T -> Option<U>, p: T -> bool)
    requires forall i :: 0 <= i < |s| ==> f(s[i]).Some? == p(s[i])
    ensures |Collect(s, f)| == Count(s, p)
  {
    if |s| > 0 {
      CollectLength(s[..|s| - 1], f, p);
    }
  }

  /** An element and its complement split a list: the two counts add up. */
  lemma {:induction false} CountSplit<T>(s: seq<T>, p: T -> bool, q: T -> bool)
    requires forall i :: 0 <= i < |s| ==> p(s[i]) != q(s[i])
    ensures Count(s, p) + Count(s, q) == |s|
  {
    if |s| > 0 {
      CountSplit(s[..|s| - 1], p, q);
    }
  }

  /** Some element passes exactly when the count is positive. */
  lemma CountPositive<T>(s: seq<T>, p: T -> bool)
    ensures Count(s, p) > 0 <==> exists i :: 0 <= i < |s| && p(s[i])
  {
    FilterMembers(s, p);
    if Count(s, p) > 0 {
      assert Filter(s, p)[0] in s;
    }
  }

  /** A filter keeps a list in strictly increasing rank. */
  lemma {:induction false} FilterKeepsIncreasing<T>(s: seq<T>, p: T -> bool, rank: T -> int)
    requires forall i, j :: 0 <= i < j < |s| ==> rank(s[i]) < rank(s[j])
    ensures forall i, j :: 0 <= i < j < |Filter(s, p)| ==> rank(Filter(s, p)[i]) < rank(Filter(s, p)[j])
  {
    if |s| > 0 {
      var init := s[..|s| - 1];
      FilterKeepsIncreasing(init, p, rank);
      FilterMembers(init, p);
      var r := Filter(s, p);
      if p(s[|s| - 1]) {
        forall i | 0 <= i < |r| - 1 ensures rank(r[i]) < rank(s[|s| - 1]) {
          assert r[i] == Filter(init, p)[i];
          assert r[i] in init;
        }
      }
    }
  }

  /** The distinct values of a list, each at its first occurrence. */
  function Distinct(s: seq<string>): (r: seq<string>)
    ensures forall i, j :: 0 <= i < j < |r| ==> r[i] != r[j]
    ensures forall x :: x in r <==> x in s
  {
    if |s| == 0 then []
    else
      var d := Distinct(s[..|s| - 1]);
      assert forall x :: x in s <==> x in s[..|s| - 1] || x == s[|s| - 1];
      if s[|s| - 1] in d then d else d + [s[|s| - 1]]
  }

  /** `[f(x) for x in s]` */
  function MapList<T, U>(s: seq<T>, f: T -> U): (r: seq<U>)
    ensures |r| == |s|
    ensures forall i :: 0 <= i < |s| ==> r[i] == f(s[i])
  {
    if |s| == 0 then [] else MapList(s[..|s| - 1], f) + [f(s[|s| - 1])]
  }

  /** The decimal digits of a natural number, as `str(n)` writes them. */
  function NatToString(n: nat): (r: string)
    ensures |r| > 0
    ensures forall i :: 0 <= i < |r| ==> '0' <= r[i] <= '9'
  {
    if n < 10 then [('0' as int + n) as char]
    else NatToString(n / 10) + [('0' as int + n % 10) as char]
  }

  /** `str(i)` of an integer. */
  function IntToString(i: int): string
  {
    if i < 0 then "-" + NatToString(-i) else NatToString(i)
  }

  /** The number a string of decimal digits denotes. */
  function ParseDigits(s: string): int
  {
    if |s| == 0 then 0
    else ParseDigits(s[..|s| - 1]) * 10 + (s[|s| - 1] as int - '0' as int)
  }

  /** The decimal digits read back as the number they came from. */
  lemma {:induction false} NatToStringRoundTrip(n: nat)
    ensures ParseDigits(NatToString(n)) == n
  {
    if n >= 10 {
      NatToStringRoundTrip(n / 10);
      var s := NatToString(n);
      assert s[..|s| - 1] == NatToString(n / 10);
    }
  }

  /** Rounding keeps a non-negative value non-negative. */
  lemma RoundNonNegative(x: real)
    requires x >= 0.0
    ensures Round1(x) >= 0.0 && Round2(x) >= 0.0
  {
    assert RoundHalfEven(x * 10.0) >= 0;
    assert RoundHalfEven(x * 100.0) >= 0;
  }

  /** A weaker predicate counts at least as many elements. */
  lemma {:induction false} CountImplies<T>(s: seq<T>, p: T -> bool, q: T -> bool)
    requires forall x :: p(x) ==> q(x)
    ensures Count(s, p) <= Count(s, q)
  {
    if |s| > 0 {
      CountImplies(s[..|s| - 1], p, q);
    }
  }

  /** `sum(f(x) for x in s)` */
  function SumBy<T>(s: seq<T>, f: T -> int): int
  {
    if |s| == 0 then 0 else SumBy(s[..|s| - 1], f) + f(s[|s| - 1])
  }

  lemma {:induction false} SumByConcat<T>(a: seq<T>, b: seq<T>, f: T -> int)
    ensures SumBy(a + b, f) == SumBy(a, f) + SumBy(b, f)
    decreases |b|
  {
    if |b| == 0 {
      assert a + b == a;
    } else {
      assert (a + b)[..|a + b| - 1] == a + b[..|b| - 1];
      SumByConcat(a, b[..|b| - 1], f);
    }
  }

  /** A sum does not depend on the order of its terms. */
  lemma {:induction false} SumByPermutation<T>(s: seq<T>, t: seq<T>, f: T -> int)
    requires multiset(s) == multiset(t)
    ensures SumBy(s, f) == SumBy(t, f)
    decreases |s|
  {
    if |s| == 0 {
      EmptyMultiset(t);
    } else {
      var x := s[|s| - 1];
      LastMultiset(s);
      var j := IndexOf(t, x);
      DeleteMultiset(t, j);
      SumByPermutation(s[..|s| - 1], t[..j] + t[j + 1..], f);
      SumByDelete(t, j, f);
    }
  }

  /** Taking one term out of a sum leaves the sum of the others. */
  lemma SumByDelete<T>(t: seq<T>, j: nat, f: T -> int)
    requires j < |t|
    ensures SumBy(t, f) == SumBy(t[..j] + t[j + 1..], f) + f(t[j])
  {
    var front, x, back := t[..j], t[j], t[j + 1..];
    var whole := (front + [x]) + back;
    assert |whole| == |t|;
    forall k | 0 <= k < |t|
      ensures whole[k] == t[k]
    {
      if k < j {
        assert whole[k] == front[k];
      } else if k > j {
        assert whole[k] == back[k - j - 1];
      }
    }
    assert whole == t;
    assert (front + [x])[..|front|] == front;
    assert SumBy(front + [x], f) == SumBy(front, f) + f(x);
    SumByConcat(front + [x], back, f);
    SumByConcat(front, back, f);
  }
}
