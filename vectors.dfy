/** Vectors of exact reals, with the reductions the strategy uses: sums,
    means, dot products, the squared 2-norm and the 1-norm. */
module Vectors {

  type Vector = seq<real>

  function Abs(x: real): (r: real)
    ensures r >= 0.0 && (r == x || r == -x)
  {
    if x < 0.0 then -x else x
  }

  function Max(a: real, b: real): (r: real)
    ensures r >= a && r >= b && (r == a || r == b)
  {
    if a >= b then a else b
  }

  function Min(a: real, b: real): (r: real)
    ensures r <= a && r <= b && (r == a || r == b)
  {
    if a <= b then a else b
  }

  function Sum(v: Vector): real
  {
    if |v| == 0 then 0.0 else Sum(v[..|v| - 1]) + v[|v| - 1]
  }

  /** Arithmetic mean of a non-empty vector. */
  function Mean(v: Vector): (m: real)
    requires |v| > 0
    ensures m * |v| as real == Sum(v)
  {
    Sum(v) / |v| as real
  }

  function Dot(a: Vector, b: Vector): real
    requires |a| == |b|
  {
    if |a| == 0 then 0.0 else Dot(a[..|a| - 1], b[..|b| - 1]) + a[|a| - 1] * b[|b| - 1]
  }

  /** The squared Euclidean norm. */
  function SqNorm(v: Vector): (s: real)
    ensures s >= 0.0
  {
    if |v| == 0 then 0.0
    else
      SquareSign(v[|v| - 1], v[|v| - 1] * v[|v| - 1]);
      SqNorm(v[..|v| - 1]) + v[|v| - 1] * v[|v| - 1]
  }

  /** Entry-wise absolute value. */
  function AbsAll(v: Vector): (a: Vector)
    ensures |a| == |v|
  {
    seq(|v|, i requires 0 <= i < |v| => Abs(v[i]))
  }

  /** The 1-norm: the sum of the absolute values of the entries. */
  function L1Norm(v: Vector): (s: real)
    ensures s >= 0.0
  {
    SumNonNegative(AbsAll(v));
    Sum(AbsAll(v))
  }

  /** v minus the constant vector m, m, ..., m. */
  function Offset(v: Vector, m: real): (d: Vector)
    ensures |d| == |v|
  {
    seq(|v|, i requires 0 <= i < |v| => v[i] - m)
  }

  /** Entry-wise sum. */
  function Add(u: Vector, w: Vector): (s: Vector)
    requires |u| == |w|
    ensures |s| == |u|
  {
    seq(|u|, i requires 0 <= i < |u| => u[i] + w[i])
  }

  /** c times v. */
  function Scale(c: real, v: Vector): (s: Vector)
    ensures |s| == |v|
  {
    seq(|v|, i requires 0 <= i < |v| => c * v[i])
  }

  /** The entries of v at the given indices, in that order. */
  function Gather(v: Vector, idx: seq<nat>): (g: Vector)
    requires forall k :: 0 <= k < |idx| ==> idx[k] < |v|
    ensures |g| == |idx|
  {
    seq(|idx|, k requires 0 <= k < |idx| => v[idx[k]])
  }

  // Facts of real arithmetic, kept apart so that each proof sees only them.

  lemma MulPositive(a: real, b: real, p: real)
    requires p == a * b && a > 0.0 && b > 0.0
    ensures p > 0.0
  {}

  /** s = x*x is non-negative, and positive unless x is zero. */
  lemma SquareSign(x: real, s: real)
    requires s == x * x
    ensures s >= 0.0
    ensures x != 0.0 ==> s > 0.0
  {
    if x > 0.0 {
      MulPositive(x, x, s);
    } else if x < 0.0 {
      MulPositive(-x, -x, s);
    }
  }

  lemma BothZero(t: real, a: real, b: real)
    requires t == a + b && a >= 0.0 && b >= 0.0 && t == 0.0
    ensures a == 0.0 && b == 0.0
  {}

  lemma AbsOfScaled(c: real, x: real)
    requires c >= 0.0
    ensures Abs(c * x) == c * Abs(x)
  {}

  lemma TimesZero(c: real)
    ensures c * 0.0 == 0.0
  {}

  lemma DropZeroProduct(x: real, y: real, c: real, z: real)
    requires x == y + c * z && z == 0.0
    ensures x == y
  {}

  lemma InverseTimes(s: real)
    requires s > 0.0
    ensures (1.0 / s) * s == 1.0 && 1.0 / s > 0.0
  {}

  lemma Reciprocal(s: real, q: real)
    requires s > 0.0 && Times(q, s) == 1.0
    ensures q == 1.0 / s > 0.0
  {}

  lemma MeanOfConstant(n: real, c: real, sum: real)
    requires n > 0.0 && sum == n * c
    ensures sum / n == c
  {}

  /** total = x + y, t = a + b, x = c*a and y = c*b give total = c*t. */
  lemma ScaleOfSum(c: real, total: real, x: real, y: real, t: real, a: real, b: real)
    requires total == x + y && t == a + b && x == c * a && y == c * b
    ensures total == c * t
  {}

  lemma DeviationTimesValue(e: real, a: real, m: real)
    requires e == a - m
    ensures e * a == e * e + m * e
  {
    assert a == e + m;
  }

  /** The inductive step of OffsetDotSelf, on the four running totals. */
  lemma OffsetDotSelfStep(dot: real, sq: real, sum: real, dot0: real, sq0: real, sum0: real,
                          e: real, a: real, m: real)
    requires e == a - m
    requires dot0 == sq0 + m * sum0
    requires dot == dot0 + e * a && sq == sq0 + e * e && sum == sum0 + e
    ensures dot == sq + m * sum
  {
    DeviationTimesValue(e, a, m);
  }

  // One-step unfoldings of the reductions.

  lemma {:induction false} SumLast(v: Vector)
    requires |v| > 0
    ensures Sum(v) == Sum(v[..|v| - 1]) + v[|v| - 1]
  {}

  lemma {:induction false} DotLast(a: Vector, b: Vector)
    requires |a| == |b| > 0
    ensures Dot(a, b) == Dot(a[..|a| - 1], b[..|b| - 1]) + a[|a| - 1] * b[|b| - 1]
  {}

  lemma {:induction false} SqNormLast(v: Vector)
    requires |v| > 0
    ensures SqNorm(v) == SqNorm(v[..|v| - 1]) + v[|v| - 1] * v[|v| - 1]
  {}

  // Prefixes of the element-wise constructions.

  lemma OffsetPrefix(v: Vector, m: real, k: nat)
    requires k <= |v|
    ensures Offset(v, m)[..k] == Offset(v[..k], m)
  {
    var s, t := Offset(v, m)[..k], Offset(v[..k], m);
    forall i | 0 <= i < k ensures s[i] == t[i] {
      assert v[..k][i] == v[i];
    }
  }

  lemma AddPrefix(u: Vector, w: Vector, k: nat)
    requires |u| == |w| && k <= |u|
    ensures Add(u, w)[..k] == Add(u[..k], w[..k])
  {
    var s, t := Add(u, w)[..k], Add(u[..k], w[..k]);
    forall i | 0 <= i < k ensures s[i] == t[i] {
      assert u[..k][i] == u[i] && w[..k][i] == w[i];
    }
  }

  lemma ScalePrefix(c: real, v: Vector, k: nat)
    requires k <= |v|
    ensures Scale(c, v)[..k] == Scale(c, v[..k])
  {
    var s, t := Scale(c, v)[..k], Scale(c, v[..k]);
    forall i | 0 <= i < k ensures s[i] == t[i] {
      assert v[..k][i] == v[i];
    }
  }

  // Properties of the reductions.

  /** A sum of non-negative entries is non-negative, and zero only when every entry is. */
  lemma {:induction false} SumNonNegative(v: Vector)
    requires forall i :: 0 <= i < |v| ==> v[i] >= 0.0
    ensures Sum(v) >= 0.0
    ensures Sum(v) == 0.0 ==> forall i :: 0 <= i < |v| ==> v[i] == 0.0
  {
    if |v| > 0 {
      var n := |v|;
      var p := v[..n - 1];
      forall i | 0 <= i < |p| ensures p[i] >= 0.0 {
        assert p[i] == v[i];
      }
      SumNonNegative(p);
      SumLast(v);
      if Sum(v) == 0.0 {
        forall i | 0 <= i < n ensures v[i] == 0.0 {
          if i < n - 1 {
            assert p[i] == v[i];
          }
        }
      }
    }
  }

  /** The squared norm is zero exactly for the zero vector. */
  lemma {:induction false} SqNormZero(v: Vector)
    ensures SqNorm(v) == 0.0 <==> forall i :: 0 <= i < |v| ==> v[i] == 0.0
  {
    if |v| > 0 {
      var n := |v|;
      SqNormZero(v[..n - 1]);
      SqNormLast(v);
      SquareSign(v[n - 1], v[n - 1] * v[n - 1]);
      var p := v[..n - 1];
      if forall i :: 0 <= i < |v| ==> v[i] == 0.0 {
        forall i | 0 <= i < |p| ensures p[i] == 0.0 {
          assert p[i] == v[i];
        }
      }
      if SqNorm(v) == 0.0 {
        BothZero(SqNorm(v), SqNorm(p), v[n - 1] * v[n - 1]);
        forall i | 0 <= i < n ensures v[i] == 0.0 {
          if i < n - 1 {
            assert p[i] == v[i];
          }
        }
      }
    }
  }

  /** The 1-norm is zero exactly for the zero vector. */
  lemma L1NormZero(v: Vector)
    ensures L1Norm(v) == 0.0 <==> forall i :: 0 <= i < |v| ==> v[i] == 0.0
  {
    var a := AbsAll(v);
    SumNonNegative(a);
    if forall i :: 0 <= i < |v| ==> v[i] == 0.0 {
      SumConstant(a, 0.0);
    }
    if L1Norm(v) == 0.0 {
      forall i | 0 <= i < |v| ensures v[i] == 0.0 {
        assert a[i] == 0.0;
      }
    }
  }

  lemma {:induction false} SumConstant(v: Vector, c: real)
    requires forall i :: 0 <= i < |v| ==> v[i] == c
    ensures Sum(v) == |v| as real * c
  {
    if |v| > 0 {
      var n := |v|;
      var p := v[..n - 1];
      forall i | 0 <= i < |p| ensures p[i] == c {
        assert p[i] == v[i];
      }
      SumConstant(p, c);
      SumLast(v);
    }
  }

  lemma {:induction false} SumScale(c: real, v: Vector)
    ensures Sum(Scale(c, v)) == c * Sum(v)
  {
    if |v| > 0 {
      var n := |v|;
      var s := Scale(c, v);
      ScalePrefix(c, v, n - 1);
      SumScale(c, v[..n - 1]);
      SumLast(s);
      SumLast(v);
      ScaleOfSum(c, Sum(s), Sum(s[..n - 1]), s[n - 1], Sum(v), Sum(v[..n - 1]), v[n - 1]);
    }
  }

  /** Deviations from m sum to Sum(v) - n*m. */
  lemma {:induction false} SumOffset(v: Vector, m: real)
    ensures Sum(Offset(v, m)) == Sum(v) - |v| as real * m
  {
    if |v| > 0 {
      var n := |v|;
      var d := Offset(v, m);
      OffsetPrefix(v, m, n - 1);
      SumOffset(v[..n - 1], m);
      SumLast(d);
      SumLast(v);
    }
  }

  /** Deviations from the mean sum to zero. */
  lemma SumOffsetMean(v: Vector)
    requires |v| > 0
    ensures Sum(Offset(v, Mean(v))) == 0.0
  {
    SumOffset(v, Mean(v));
  }

  /** (v - m) . v splits into the squared spread plus m times the summed deviations. */
  lemma {:induction false} OffsetDotSelf(v: Vector, m: real)
    ensures Dot(Offset(v, m), v) == SqNorm(Offset(v, m)) + m * Sum(Offset(v, m))
  {
    if |v| > 0 {
      OffsetDotSelf(v[..|v| - 1], m);
      OffsetDotSelfExtend(v, m);
    } else {
      TimesZero(m);
    }
  }

  lemma {:induction false} OffsetDotSelfExtend(v: Vector, m: real)
    requires |v| > 0
    requires var p := Offset(v[..|v| - 1], m);
      Dot(p, v[..|v| - 1]) == SqNorm(p) + m * Sum(p)
    ensures Dot(Offset(v, m), v) == SqNorm(Offset(v, m)) + m * Sum(Offset(v, m))
  {
    var n := |v|;
    var d := Offset(v, m);
    OffsetPrefix(v, m, n - 1);
    DotLast(d, v);
    SqNormLast(d);
    SumLast(d);
    OffsetDotSelfStep(Dot(d, v), SqNorm(d), Sum(d),
                      Dot(d[..n - 1], v[..n - 1]), SqNorm(d[..n - 1]), Sum(d[..n - 1]),
                      d[n - 1], v[n - 1], m);
  }

  /** When the deviations from m sum to zero, (v - m) . v is the squared spread around m. */
  lemma CenteredOffsetDot(v: Vector, m: real)
    requires Sum(Offset(v, m)) == 0.0
    ensures Dot(Offset(v, m), v) == SqNorm(Offset(v, m))
  {
    var d := Offset(v, m);
    OffsetDotSelf(v, m);
    DropZeroProduct(Dot(d, v), SqNorm(d), m, Sum(d));
  }

  /** Real multiplication as a named function, so that a product stated in
      one contract is recognised in another through equal arguments. */
  function Times(a: real, b: real): (p: real)
    ensures a == 0.0 || b == 0.0 ==> p == 0.0
  {
    a * b
  }

  /** The projected value of a passive-aggressive move is affine in the step size. */
  lemma PassiveAggressiveDot(b: Vector, d: Vector, x: Vector, lam: real)
    requires |b| == |d| == |x|
    ensures Dot(Add(b, Scale(lam, d)), x) == Dot(b, x) + Times(lam, Dot(d, x))
  {
    DotAdd(b, Scale(lam, d), x);
    DotScale(lam, d, x);
  }

  lemma {:induction false} DotAdd(u: Vector, w: Vector, x: Vector)
    requires |u| == |w| == |x|
    ensures Dot(Add(u, w), x) == Dot(u, x) + Dot(w, x)
  {
    if |x| > 0 {
      var n := |x|;
      var s := Add(u, w);
      AddPrefix(u, w, n - 1);
      DotAdd(u[..n - 1], w[..n - 1], x[..n - 1]);
      DotLast(s, x);
      DotLast(u, x);
      DotLast(w, x);
      assert s[n - 1] * x[n - 1] == u[n - 1] * x[n - 1] + w[n - 1] * x[n - 1];
    }
  }

  lemma {:induction false} DotScale(c: real, w: Vector, x: Vector)
    requires |w| == |x|
    ensures Dot(Scale(c, w), x) == c * Dot(w, x)
  {
    if |x| > 0 {
      DotScale(c, w[..|w| - 1], x[..|x| - 1]);
      DotScaleExtend(c, w, x);
    } else {
      TimesZero(c);
    }
  }

  lemma {:induction false} DotScaleExtend(c: real, w: Vector, x: Vector)
    requires |w| == |x| > 0
    requires Dot(Scale(c, w[..|w| - 1]), x[..|x| - 1]) == c * Dot(w[..|w| - 1], x[..|x| - 1])
    ensures Dot(Scale(c, w), x) == c * Dot(w, x)
  {
    var n := |x|;
    var s := Scale(c, w);
    ScalePrefix(c, w, n - 1);
    DotLast(s, x);
    DotLast(w, x);
    ScaleOfSum(c, Dot(s, x), Dot(s[..n - 1], x[..n - 1]), s[n - 1] * x[n - 1],
               Dot(w, x), Dot(w[..n - 1], x[..n - 1]), w[n - 1] * x[n - 1]);
  }

  /** A vector has zero spread around its mean exactly when all its entries are equal. */
  lemma ZeroSpreadIffConstant(v: Vector)
    requires |v| > 0
    ensures SqNorm(Offset(v, Mean(v))) == 0.0 <==>
            forall i, j :: 0 <= i < |v| && 0 <= j < |v| ==> v[i] == v[j]
  {
    var m := Mean(v);
    var d := Offset(v, m);
    SqNormZero(d);
    if forall i, j :: 0 <= i < |v| && 0 <= j < |v| ==> v[i] == v[j] {
      SumConstant(v, v[0]);
      MeanOfConstant(|v| as real, v[0], Sum(v));
      forall i | 0 <= i < |v| ensures d[i] == 0.0 {}
    }
    if SqNorm(d) == 0.0 {
      forall i | 0 <= i < |v| ensures v[i] == m {
        assert d[i] == 0.0;
      }
    }
  }

  lemma AbsAllScale(c: real, v: Vector)
    requires c >= 0.0
    ensures AbsAll(Scale(c, v)) == Scale(c, AbsAll(v))
  {
    var s, t := AbsAll(Scale(c, v)), Scale(c, AbsAll(v));
    forall i | 0 <= i < |v| ensures s[i] == t[i] {
      AbsOfScaled(c, v[i]);
    }
  }

  /** The 1-norm is homogeneous under non-negative scaling. */
  lemma L1NormScale(c: real, v: Vector)
    requires c >= 0.0
    ensures L1Norm(Scale(c, v)) == c * L1Norm(v)
  {
    AbsAllScale(c, v);
    SumScale(c, AbsAll(v));
  }

  /** Dividing a vector by its 1-norm gives a vector of 1-norm one. */
  lemma NormalisedHasUnitL1Norm(v: Vector)
    requires L1Norm(v) != 0.0
    ensures L1Norm(Scale(1.0 / L1Norm(v), v)) == 1.0
  {
    var s := L1Norm(v);
    InverseTimes(s);
    L1NormScale(1.0 / s, v);
  }
}
