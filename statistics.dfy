/** The statistics the predictive engine takes over `(timestamp, value)` data
    points: the means, the two least-squares sums of `calculate_growth_rate`
    and the sample variance of the anomaly check. Each sum ranges over one
    kind of summand, named by the first-order `Term`, so that the sums and
    their lemmas need no function values. */
module Statistics {
  import opened Common

  /** A `(timestamp, value)` data point. */
  datatype Sample = Sample(timestamp: int, value: real)

  function TimeKey(p: Sample): real
  {
    p.timestamp as real
  }

  /** Days elapsed from `t0` to the sample: `(t - t0).total_seconds() / 86400`. */
  function Days(t0: int, p: Sample): real
  {
    (p.timestamp - t0) as real / 86400.0
  }

  /** The summands the source adds up. */
  datatype Term =
    | ValueOf                             // y
    | DaysOf(t0: int)                     // x, in days since t0
    | Cross(t0: int, xm: real, ym: real)  // (x - x_mean) * (y - y_mean)
    | SquaredDays(t0: int, xm: real)      // (x - x_mean) ** 2
    | SquaredValue(ym: real)              // (y - mean) ** 2

  function Eval(t: Term, p: Sample): real
  {
    match t
    case ValueOf => p.value
    case DaysOf(t0) => Days(t0, p)
    case Cross(t0, xm, ym) => (Days(t0, p) - xm) * (p.value - ym)
    case SquaredDays(t0, xm) => Square(Days(t0, p) - xm)
    case SquaredValue(ym) => Square(p.value - ym)
  }

  /** `sum(xs)`. */
  function Total(xs: seq<real>): real
  {
    if |xs| == 0 then 0.0 else Total(xs[..|xs| - 1]) + xs[|xs| - 1]
  }

  lemma {:induction false} TotalConcat(xs: seq<real>, ys: seq<real>)
    ensures Total(xs + ys) == Total(xs) + Total(ys)
    decreases |ys|
  {
    if |ys| == 0 {
      assert xs + ys == xs;
    } else {
      assert (xs + ys)[..|xs + ys| - 1] == xs + ys[..|ys| - 1];
      TotalConcat(xs, ys[..|ys| - 1]);
    }
  }

  /** Sums over two orderings of the same numbers agree. */
  lemma {:induction false} TotalPermutation(xs: seq<real>, ys: seq<real>)
    requires multiset(xs) == multiset(ys)
    ensures Total(xs) == Total(ys)
    decreases |xs|
  {
    if |xs| == 0 {
      EmptyMultiset(ys);
    } else {
      var n := |xs| - 1;
      LastMultiset(xs);
      var j := IndexOf(ys, xs[n]);
      DeleteMultiset(ys, j);
      TotalPermutation(xs[..n], ys[..j] + ys[j + 1..]);
      TotalDelete(ys, j);
    }
  }

  /** Dropping the number at `j` takes it off the sum. */
  lemma {:induction false} TotalDelete(xs: seq<real>, j: nat)
    requires j < |xs|
    ensures Total(xs) == Total(xs[..j] + xs[j + 1..]) + xs[j]
    decreases |xs|
  {
    var n := |xs| - 1;
    var rest := xs[..j] + xs[j + 1..];
    if j == n {
      assert rest == xs[..n];
    } else {
      var init := xs[..n];
      TotalDelete(init, j);
      assert rest[..|rest| - 1] == init[..j] + init[j + 1..];
    }
  }

  /** Each number of `xs` is `c` times the matching number of `ys`. */
  predicate Proportional(xs: seq<real>, ys: seq<real>, c: real)
  {
    |xs| == |ys| && forall i :: 0 <= i < |xs| ==> xs[i] == c * ys[i]
  }

  lemma AddScaled(a: real, b: real, x: real, y: real, c: real)
    requires a == c * b && x == c * y
    ensures a + x == c * (b + y)
  {
  }

  lemma {:induction false} TotalScale(xs: seq<real>, ys: seq<real>, c: real)
    requires Proportional(xs, ys, c)
    ensures Total(xs) == c * Total(ys)
  {
    if |xs| > 0 {
      var n := |xs| - 1;
      TotalScale(xs[..n], ys[..n], c);
      AddScaled(Total(xs[..n]), Total(ys[..n]), xs[n], ys[n], c);
    }
  }

  /** A sum of `n` copies of `c` is `n * c`. */
  lemma {:induction false} TotalConstant(xs: seq<real>, c: real)
    requires forall i :: 0 <= i < |xs| ==> xs[i] == c
    ensures Total(xs) == |xs| as real * c
  {
    if |xs| > 0 {
      TotalConstant(xs[..|xs| - 1], c);
    }
  }

  /** A sum of non-negative numbers is non-negative. */
  lemma {:induction false} TotalNonNegative(xs: seq<real>)
    requires forall i :: 0 <= i < |xs| ==> xs[i] >= 0.0
    ensures Total(xs) >= 0.0
  {
    if |xs| > 0 {
      TotalNonNegative(xs[..|xs| - 1]);
    }
  }

  /** A sum of non-negative numbers, one of them positive, is positive. */
  lemma {:induction false} TotalPositive(xs: seq<real>, i: nat)
    requires forall k :: 0 <= k < |xs| ==> xs[k] >= 0.0
    requires i < |xs| && xs[i] > 0.0
    ensures Total(xs) > 0.0
  {
    TotalNonNegative(xs[..|xs| - 1]);
    if i < |xs| - 1 {
      TotalPositive(xs[..|xs| - 1], i);
    }
  }

  /** The summands `t(p)` for the points `p` of `s`, in order. */
  function Terms(s: seq<Sample>, t: Term): (r: seq<real>)
    ensures |r| == |s|
  {
    if |s| == 0 then [] else Terms(s[..|s| - 1], t) + [Eval(t, s[|s| - 1])]
  }

  lemma {:induction false} TermsAt(s: seq<Sample>, t: Term)
    ensures forall i :: 0 <= i < |s| ==> Terms(s, t)[i] == Eval(t, s[i])
  {
    if |s| > 0 {
      TermsAt(s[..|s| - 1], t);
    }
  }

  /** `[f(p) for p in s]`. */
  function Map(s: seq<Sample>, f: Sample -> real): (r: seq<real>)
    ensures |r| == |s|
  {
    if |s| == 0 then [] else Map(s[..|s| - 1], f) + [f(s[|s| - 1])]
  }

  lemma {:induction false} MapConcat(a: seq<Sample>, b: seq<Sample>, f: Sample -> real)
    ensures Map(a + b, f) == Map(a, f) + Map(b, f)
    decreases |b|
  {
    if |b| == 0 {
      assert a + b == a;
    } else {
      assert (a + b)[..|a + b| - 1] == a + b[..|b| - 1];
      MapConcat(a, b[..|b| - 1], f);
    }
  }

  lemma {:induction false} MapAt(s: seq<Sample>, f: Sample -> real, i: nat)
    requires i < |s|
    ensures Map(s, f)[i] == f(s[i])
    decreases |s|
  {
    if i < |s| - 1 {
      MapAt(s[..|s| - 1], f, i);
    }
  }

  /** Dropping the point at `j` drops its image. */
  lemma {:induction false} MapDelete(s: seq<Sample>, f: Sample -> real, j: nat)
    requires j < |s|
    ensures Map(s[..j] + s[j + 1..], f) == Map(s, f)[..j] + Map(s, f)[j + 1..]
    decreases |s|
  {
    var n := |s| - 1;
    var rest, whole := s[..j] + s[j + 1..], Map(s, f);
    if j == n {
      assert rest == s[..n];
    } else {
      var init := s[..n];
      MapDelete(init, f, j);
      assert rest[..|rest| - 1] == init[..j] + init[j + 1..];
      var part := Map(init, f);
      assert whole == part + [f(s[n])];
      assert whole[..j] + whole[j + 1..] == part[..j] + part[j + 1..] + [f(s[n])];
    }
  }

  lemma MapLast(s: seq<Sample>, f: Sample -> real)
    requires |s| > 0
    ensures multiset(Map(s, f)) == multiset(Map(s[..|s| - 1], f)) + multiset{f(s[|s| - 1])}
  {
  }

  /** Reordering the points reorders their images. */
  lemma {:induction false} MapPermutation(a: seq<Sample>, b: seq<Sample>, f: Sample -> real)
    requires multiset(a) == multiset(b)
    ensures multiset(Map(a, f)) == multiset(Map(b, f))
    decreases |a|
  {
    if |a| == 0 {
      EmptyMultiset(b);
    } else {
      var n := |a| - 1;
      LastMultiset(a);
      var j := IndexOf(b, a[n]);
      DeleteMultiset(b, j);
      MapPermutation(a[..n], b[..j] + b[j + 1..], f);
      MapLast(a, f);
      MapDelete(b, f, j);
      MapAt(b, f, j);
      DeleteMultiset(Map(b, f), j);
      PutBack(multiset(Map(b, f)), f(a[n]));
    }
  }

  function EvalOf(t: Term): Sample -> real
  {
    (p: Sample) => Eval(t, p)
  }

  lemma {:induction false} TermsAsMap(s: seq<Sample>, t: Term)
    ensures Terms(s, t) == Map(s, EvalOf(t))
  {
    if |s| > 0 {
      TermsAsMap(s[..|s| - 1], t);
    }
  }

  /** Reordering the points reorders their summands. */
  lemma TermsPermutation(a: seq<Sample>, b: seq<Sample>, t: Term)
    requires multiset(a) == multiset(b)
    ensures multiset(Terms(a, t)) == multiset(Terms(b, t))
  {
    TermsAsMap(a, t);
    TermsAsMap(b, t);
    MapPermutation(a, b, EvalOf(t));
  }

  /** `sum(t(p) for p in s)`. */
  function Sum(s: seq<Sample>, t: Term): real
  {
    Total(Terms(s, t))
  }

  lemma SumStep(s: seq<Sample>, t: Term)
    requires |s| > 0
    ensures Sum(s, t) == Sum(s[..|s| - 1], t) + Eval(t, s[|s| - 1])
  {
    var xs := Terms(s, t);
    assert xs[..|xs| - 1] == Terms(s[..|s| - 1], t);
  }

  /** Sums over two orderings of the same points agree. */
  lemma SumPermutation(a: seq<Sample>, b: seq<Sample>, t: Term)
    requires multiset(a) == multiset(b)
    ensures Sum(a, t) == Sum(b, t)
  {
    TermsPermutation(a, b, t);
    TotalPermutation(Terms(a, t), Terms(b, t));
  }

  /** `statistics.mean` of the values. */
  function Mean(s: seq<Sample>): real
    requires |s| > 0
  {
    Sum(s, ValueOf) / |s| as real
  }

  /** The mean of the day offsets from `t0`. */
  function DayMean(s: seq<Sample>, t0: int): real
    requires |s| > 0
  {
    Sum(s, DaysOf(t0)) / |s| as real
  }

  /** `sum((x[i] - x_mean) * (y[i] - y_mean))` with x in days since `t0`. */
  function Numerator(s: seq<Sample>, t0: int): real
    requires |s| > 0
  {
    Sum(s, Cross(t0, DayMean(s, t0), Mean(s)))
  }

  /** `sum((x[i] - x_mean) ** 2)` with x in days since `t0`. */
  function Denominator(s: seq<Sample>, t0: int): real
    requires |s| > 0
  {
    Sum(s, SquaredDays(t0, DayMean(s, t0)))
  }

  /** Seven times the least-squares slope of value against days since `t0`
      (growth per week), and 0 when all the points share one instant. */
  function Slope(s: seq<Sample>, t0: int): real
    requires |s| > 0
  {
    var d := Denominator(s, t0);
    if d == 0.0 then 0.0 else Numerator(s, t0) / d * 7.0
  }

  /** `statistics.variance`: the sample variance, the square of `statistics.stdev`. */
  function SampleVariance(s: seq<Sample>): real
    requires |s| >= 2
  {
    Sum(s, SquaredValue(Mean(s))) / (|s| - 1) as real
  }

  lemma SquaredDaysSign(s: seq<Sample>, t0: int, xm: real)
    ensures forall i :: 0 <= i < |s| ==> Terms(s, SquaredDays(t0, xm))[i] >= 0.0
    ensures forall i :: 0 <= i < |s| && Days(t0, s[i]) != xm ==> Terms(s, SquaredDays(t0, xm))[i] > 0.0
  {
    TermsAt(s, SquaredDays(t0, xm));
    forall i | 0 <= i < |s|
      ensures Terms(s, SquaredDays(t0, xm))[i] >= 0.0
      ensures Days(t0, s[i]) != xm ==> Terms(s, SquaredDays(t0, xm))[i] > 0.0
    {
      SquarePositive(Days(t0, s[i]) - xm);
    }
  }

  lemma DenominatorNonNegative(s: seq<Sample>, t0: int)
    requires |s| > 0
    ensures Denominator(s, t0) >= 0.0
  {
    SquaredDaysSign(s, t0, DayMean(s, t0));
    TotalNonNegative(Terms(s, SquaredDays(t0, DayMean(s, t0))));
  }

  /** The mean of `n` equal values is that value. */
  lemma MeanOfEqual(total: real, n: nat, c: real)
    requires n > 0 && total == n as real * c
    ensures total / n as real == c
  {
  }

  /** Points that all share one instant give a zero denominator. */
  lemma DenominatorOfSameInstant(s: seq<Sample>, t0: int)
    requires |s| > 0
    requires forall i :: 0 <= i < |s| ==> s[i].timestamp == s[0].timestamp
    ensures Denominator(s, t0) == 0.0
  {
    var x0 := Days(t0, s[0]);
    TermsAt(s, DaysOf(t0));
    TotalConstant(Terms(s, DaysOf(t0)), x0);
    MeanOfEqual(Sum(s, DaysOf(t0)), |s|, x0);
    TermsAt(s, SquaredDays(t0, x0));
    TotalConstant(Terms(s, SquaredDays(t0, x0)), 0.0);
  }

  /** Points at two or more instants give a positive denominator. */
  lemma DenominatorPositive(s: seq<Sample>, t0: int, i: nat)
    requires i < |s| && s[i].timestamp != s[0].timestamp
    ensures Denominator(s, t0) > 0.0
  {
    var xm := DayMean(s, t0);
    SquaredDaysSign(s, t0, xm);
    var j: nat := if Days(t0, s[i]) != xm then i else 0;
    TotalPositive(Terms(s, SquaredDays(t0, xm)), j);
  }

  /** The denominator is zero exactly when every point has the same instant. */
  lemma DenominatorZeroIff(s: seq<Sample>, t0: int)
    requires |s| > 0
    ensures Denominator(s, t0) == 0.0 <==> forall i :: 0 <= i < |s| ==> s[i].timestamp == s[0].timestamp
  {
    if forall i :: 0 <= i < |s| ==> s[i].timestamp == s[0].timestamp {
      DenominatorOfSameInstant(s, t0);
    } else {
      var i :| 0 <= i < |s| && s[i].timestamp != s[0].timestamp;
      DenominatorPositive(s, t0, i);
    }
  }

  /** A constant series has that constant as its mean. */
  lemma MeanOfConstant(s: seq<Sample>, c: real)
    requires |s| > 0
    requires forall i :: 0 <= i < |s| ==> s[i].value == c
    ensures Mean(s) == c
  {
    TermsAt(s, ValueOf);
    TotalConstant(Terms(s, ValueOf), c);
    MeanOfEqual(Sum(s, ValueOf), |s|, c);
  }

  /** A constant series has a zero numerator. */
  lemma NumeratorOfConstant(s: seq<Sample>, t0: int, c: real)
    requires |s| > 0
    requires forall i :: 0 <= i < |s| ==> s[i].value == c
    ensures Numerator(s, t0) == 0.0
  {
    MeanOfConstant(s, c);
    TermsAt(s, Cross(t0, DayMean(s, t0), c));
    TotalConstant(Terms(s, Cross(t0, DayMean(s, t0), c)), 0.0);
  }

  /** A constant series has a zero sample variance. */
  lemma VarianceOfConstant(s: seq<Sample>, c: real)
    requires |s| >= 2
    requires forall i :: 0 <= i < |s| ==> s[i].value == c
    ensures SampleVariance(s) == 0.0
  {
    MeanOfConstant(s, c);
    TermsAt(s, SquaredValue(c));
    TotalConstant(Terms(s, SquaredValue(c)), 0.0);
  }

  /** Every point lies on the line `value = a + b * days since t0`. */
  predicate OnLine(s: seq<Sample>, t0: int, a: real, b: real)
  {
    forall i :: 0 <= i < |s| ==> s[i].value == a + b * Days(t0, s[i])
  }

  /** The total value of points on a line. */
  lemma {:induction false} SumOfLine(s: seq<Sample>, t0: int, a: real, b: real)
    requires OnLine(s, t0, a, b)
    ensures Sum(s, ValueOf) == |s| as real * a + b * Sum(s, DaysOf(t0))
  {
    if |s| > 0 {
      SumOfLine(s[..|s| - 1], t0, a, b);
      SumStep(s, ValueOf);
      SumStep(s, DaysOf(t0));
    }
  }

  lemma DivideSum(total: real, n: real, a: real, b: real, sx: real)
    requires n > 0.0 && total == n * a + b * sx
    ensures total / n == a + b * (sx / n)
  {
  }

  /** The mean value of points on a line is the line at the mean day. */
  lemma MeanOfLine(s: seq<Sample>, t0: int, a: real, b: real)
    requires |s| > 0
    requires OnLine(s, t0, a, b)
    ensures Mean(s) == a + b * DayMean(s, t0)
  {
    SumOfLine(s, t0, a, b);
    DivideSum(Sum(s, ValueOf), |s| as real, a, b, Sum(s, DaysOf(t0)));
  }

  lemma Distribute(b: real, x: real, y: real)
    ensures b * (x + y) == b * x + b * y
    ensures b * (x - y) == b * x - b * y
  {
  }

  lemma CrossOfLine(e: real, b: real, dy: real)
    requires dy == b * e
    ensures e * dy == b * Square(e)
  {
  }

  /** For one point on the line, the cross summand is `b` times the squared one. */
  lemma CrossOfLinePoint(p: Sample, t0: int, a: real, b: real, xm: real, ym: real)
    requires p.value == a + b * Days(t0, p)
    requires ym == a + b * xm
    ensures Eval(Cross(t0, xm, ym), p) == b * Eval(SquaredDays(t0, xm), p)
  {
    var x := Days(t0, p);
    Distribute(b, x, xm);
    CrossOfLine(x - xm, b, p.value - ym);
  }

  /** On a line, each cross summand is `b` times the matching squared one. */
  lemma CrossTermsOfLine(s: seq<Sample>, t0: int, a: real, b: real, xm: real, ym: real)
    requires OnLine(s, t0, a, b)
    requires ym == a + b * xm
    ensures Proportional(Terms(s, Cross(t0, xm, ym)), Terms(s, SquaredDays(t0, xm)), b)
  {
    var xs, ys := Terms(s, Cross(t0, xm, ym)), Terms(s, SquaredDays(t0, xm));
    TermsAt(s, Cross(t0, xm, ym));
    TermsAt(s, SquaredDays(t0, xm));
    forall i | 0 <= i < |s| ensures xs[i] == b * ys[i] {
      CrossOfLinePoint(s[i], t0, a, b, xm, ym);
    }
  }

  /** Points on an exact line `value = a + b * days since t0` give a numerator
      of `b` times the denominator. */
  lemma NumeratorOfLine(s: seq<Sample>, t0: int, a: real, b: real)
    requires |s| > 0
    requires OnLine(s, t0, a, b)
    ensures Numerator(s, t0) == b * Denominator(s, t0)
  {
    var xm, ym := DayMean(s, t0), Mean(s);
    MeanOfLine(s, t0, a, b);
    CrossTermsOfLine(s, t0, a, b, xm, ym);
    TotalScale(Terms(s, Cross(t0, xm, ym)), Terms(s, SquaredDays(t0, xm)), b);
  }

  /** Points on an exact line over at least two instants have slope `7 * b`. */
  lemma SlopeOfLine(s: seq<Sample>, t0: int, a: real, b: real, i: nat)
    requires i < |s| && s[i].timestamp != s[0].timestamp
    requires OnLine(s, t0, a, b)
    ensures Slope(s, t0) == 7.0 * b
  {
    NumeratorOfLine(s, t0, a, b);
    DenominatorPositive(s, t0, i);
    var d := Denominator(s, t0);
    assert b * d / d == b;
  }

  /** A constant series has slope 0. */
  lemma SlopeOfConstant(s: seq<Sample>, t0: int, c: real)
    requires |s| > 0
    requires forall i :: 0 <= i < |s| ==> s[i].value == c
    ensures Slope(s, t0) == 0.0
  {
    NumeratorOfConstant(s, t0, c);
  }

  /** Reordering the points does not change the slope. */
  lemma SlopeOfPermutation(s: seq<Sample>, t: seq<Sample>, t0: int)
    requires |s| > 0 && multiset(s) == multiset(t)
    ensures |t| > 0 && Slope(s, t0) == Slope(t, t0)
  {
    assert |s| == |multiset(s)| == |multiset(t)| == |t|;
    SumPermutation(s, t, ValueOf);
    SumPermutation(s, t, DaysOf(t0));
    var xm, ym := DayMean(s, t0), Mean(s);
    SumPermutation(s, t, Cross(t0, xm, ym));
    SumPermutation(s, t, SquaredDays(t0, xm));
  }

  /** Moving the anchor of the day count shifts every offset by a constant. */
  lemma ReAnchor(p: Sample, t0: int, c: int)
    ensures Days(c, p) == Days(t0, p) + Days(c, Sample(t0, 0.0))
  {
  }

  /** Points drawn from a line lie on it. */
  lemma LineOfSubset(s: seq<Sample>, t: seq<Sample>, c: int, a: real, b: real)
    requires OnLine(s, c, a, b)
    requires forall i :: 0 <= i < |t| ==> t[i] in s
    ensures OnLine(t, c, a, b)
  {
    forall i | 0 <= i < |t| ensures t[i].value == a + b * Days(c, t[i]) {
      var k :| 0 <= k < |s| && s[k] == t[i];
    }
  }

  /** A line in days since `c` is a line in days since any other instant `t0`,
      with the same slope. */
  lemma LineReAnchored(s: seq<Sample>, c: int, t0: int, a: real, b: real)
    requires OnLine(s, c, a, b)
    ensures OnLine(s, t0, a + b * Days(c, Sample(t0, 0.0)), b)
  {
    var shift := Days(c, Sample(t0, 0.0));
    forall i | 0 <= i < |s| ensures s[i].value == a + b * shift + b * Days(t0, s[i]) {
      ReAnchor(s[i], t0, c);
      Distribute(b, Days(t0, s[i]), shift);
    }
  }

  /** Points on a line over at least two instants have slope `7 * b`, whatever
      instant the days are counted from. */
  lemma SlopeOfAnyLine(s: seq<Sample>, c: int, t0: int, a: real, b: real, i: nat)
    requires i < |s| && s[i].timestamp != s[0].timestamp
    requires OnLine(s, c, a, b)
    ensures Slope(s, t0) == 7.0 * b
  {
    LineReAnchored(s, c, t0, a, b);
    SlopeOfLine(s, t0, a + b * Days(c, Sample(t0, 0.0)), b, i);
  }
}
