/** The OLMAR allocation step of get_new_allocation and compute_lambda: a
    passive-aggressive move of the current weights towards the predicted
    price relatives, followed by normalisation to unit 1-norm. */
module Allocation {
  import opened Wrappers
  import opened Vectors

  datatype AllocError =
    | NoAvailableAssets  // no asset has a positive open: the mean over available assets is undefined
    | ZeroNorm           // every unnormalised weight is zero: normalising would divide by zero

  /** Upper clamp on the step size, to avoid moving too aggressively. */
  const LambdaCap: real := 100000.0

  /** Indices of the assets available today (positive open), in increasing order. */
  function AvailableIndices(op: Vector): (idx: seq<nat>)
    ensures forall k :: 0 <= k < |idx| ==> idx[k] < |op| && op[idx[k]] > 0.0
    ensures forall i :: 0 <= i < |op| && op[i] > 0.0 ==> i in idx
    ensures forall k, l :: 0 <= k < l < |idx| ==> idx[k] < idx[l]
  {
    if |op| == 0 then []
    else
      var rest := AvailableIndices(op[..|op| - 1]);
      assert forall i :: 0 <= i < |op| - 1 ==> op[..|op| - 1][i] == op[i];
      rest + (if op[|op| - 1] > 0.0 then [|op| - 1] else [])
  }

  /** When every open is positive, every asset is available, in order. */
  lemma {:induction false} AllAvailable(op: Vector)
    requires forall i :: 0 <= i < |op| ==> op[i] > 0.0
    ensures AvailableIndices(op) == seq(|op|, i => i)
  {
    if |op| > 0 {
      var p := op[..|op| - 1];
      assert forall i :: 0 <= i < |p| ==> p[i] == op[i];
      AllAvailable(p);
      assert AvailableIndices(op) == AvailableIndices(p) + [|p|];
      RangeSnoc(|p|);
    }
  }

  /** The indices 0 .. n-1 followed by n are the indices 0 .. n. */
  lemma RangeSnoc(n: nat)
    ensures seq(n, i => i) + [n] == seq(n + 1, i => i)
  {
    var a, b := seq(n, i => i) + [n], seq(n + 1, i => i);
    forall k | 0 <= k < n + 1 ensures a[k] == b[k] {}
  }

  /** No index is available exactly when no open is positive. */
  lemma NoneAvailable(op: Vector)
    ensures |AvailableIndices(op)| == 0 <==> forall i :: 0 <= i < |op| ==> op[i] <= 0.0
  {
    var idx := AvailableIndices(op);
    if |idx| > 0 {
      assert op[idx[0]] > 0.0;
    }
  }

  /** compute_lambda: zero when the predicted relatives have no spread around
      m; otherwise (eps - b.x) / |x - m|^2, floored at zero. */
  function ComputeLambda(eps: real, bAvail: Vector, x: Vector, m: real): (lam: real)
    requires |bAvail| == |x|
    ensures lam >= 0.0
    ensures SqNorm(Offset(x, m)) == 0.0 || eps <= Dot(bAvail, x) ==> lam == 0.0
    ensures SqNorm(Offset(x, m)) != 0.0 && eps > Dot(bAvail, x) ==>
              Times(lam, SqNorm(Offset(x, m))) == eps - Dot(bAvail, x)
  {
    var sq := SqNorm(Offset(x, m));
    if sq == 0.0 then 0.0
    else
      var q := (eps - Dot(bAvail, x)) / sq;
      QuotientSign(eps - Dot(bAvail, x), sq, q);
      Max(0.0, q)
  }

  lemma QuotientSign(a: real, s: real, q: real)
    requires s > 0.0 && q == a / s
    ensures a > 0.0 ==> q > 0.0 && q * s == a
    ensures a <= 0.0 ==> q <= 0.0
  {}

  /** The clamp `min(100000, lam)` of get_new_allocation: lambda never
      exceeds LambdaCap. */
  function ClipLambda(lam: real): (r: real)
    ensures r <= LambdaCap
    ensures lam <= LambdaCap ==> r == lam
    ensures lam > LambdaCap ==> r == LambdaCap
  {
    Min(LambdaCap, lam)
  }

  /** The move of one weight: b_i + lam * (x_i - m). */
  function MoveWeight(bi: real, xi: real, lam: real, m: real): (w: real)
    ensures lam == 0.0 || xi == m ==> w == bi
  {
    bi + lam * (xi - m)
  }

  /** The unnormalised new weights: b[i] + lam * (ppr[i] - m) where the
      prediction is positive, and 0 elsewhere. */
  function ProjectWeights(b: Vector, ppr: Vector, lam: real, m: real): (w: Vector)
    requires |b| == |ppr|
    ensures |w| == |b|
    ensures forall i :: 0 <= i < |b| && ppr[i] <= 0.0 ==> w[i] == 0.0
  {
    seq(|b|, i requires 0 <= i < |b| => if ppr[i] > 0.0 then MoveWeight(b[i], ppr[i], lam, m) else 0.0)
  }

  /** Division by the 1-norm; an all-zero vector cannot be normalised. */
  function Normalise(v: Vector): (r: Result<Vector, AllocError>)
    ensures r.Ok? ==> |r.value| == |v| && L1Norm(r.value) == 1.0
    ensures r.Ok? ==> L1Norm(v) > 0.0 && forall i :: 0 <= i < |v| ==> Times(r.value[i], L1Norm(v)) == v[i]
    ensures r.Ok? ==> forall i :: 0 <= i < |v| && v[i] == 0.0 ==> r.value[i] == 0.0
    ensures r.Err? <==> forall i :: 0 <= i < |v| ==> v[i] == 0.0
    ensures r.Err? ==> r.error == ZeroNorm
  {
    L1NormZero(v);
    if L1Norm(v) == 0.0 then Err(ZeroNorm)
    else
      NormalisedHasUnitL1Norm(v);
      ScaledBack(v);
      Ok(Scale(1.0 / L1Norm(v), v))
  }

  /** Dividing by the 1-norm is undone by multiplying by it, entry by entry. */
  lemma ScaledBack(v: Vector)
    requires L1Norm(v) != 0.0
    ensures forall i :: 0 <= i < |v| ==> Times(Scale(1.0 / L1Norm(v), v)[i], L1Norm(v)) == v[i]
  {
    var s := L1Norm(v);
    forall i | 0 <= i < |v| ensures Times(Scale(1.0 / s, v)[i], s) == v[i] {
      UndoScale(s, v[i], Scale(1.0 / s, v)[i]);
    }
  }

  lemma UndoScale(s: real, a: real, q: real)
    requires s != 0.0 && q == (1.0 / s) * a
    ensures q * s == a
  {}

  /** 1 for an available asset, 0 otherwise. */
  function Indicator(op: Vector): (e: Vector)
    ensures |e| == |op|
  {
    seq(|op|, i requires 0 <= i < |op| => if op[i] > 0.0 then 1.0 else 0.0)
  }

  /** The starting allocation when there is no training data: equal weights
      on the available assets (the behaviour assumed of util.get_uniform_allocation). */
  function UniformAllocation(op: Vector): (r: Result<Vector, AllocError>)
    ensures r.Ok? ==> |r.value| == |op| && L1Norm(r.value) == 1.0
    ensures r.Ok? ==> forall i, j :: 0 <= i < |op| && 0 <= j < |op| && op[i] > 0.0 && op[j] > 0.0 ==>
                        r.value[i] == r.value[j] > 0.0
    ensures r.Ok? ==> forall i :: 0 <= i < |op| && op[i] <= 0.0 ==> r.value[i] == 0.0
    ensures r.Err? <==> forall i :: 0 <= i < |op| ==> op[i] <= 0.0
  {
    var e := Indicator(op);
    match Normalise(e)
    case Err(_) =>
      assert forall i :: 0 <= i < |op| ==> op[i] <= 0.0 by {
        forall i | 0 <= i < |op| ensures op[i] <= 0.0 {
          assert e[i] == 0.0;
        }
      }
      Err(NoAvailableAssets)
    case Ok(u) =>
      EqualWeights(op, u);
      Ok(u)
  }

  /** Normalising the indicator gives every available asset the same
      positive weight. */
  lemma EqualWeights(op: Vector, u: Vector)
    requires Normalise(Indicator(op)) == Ok(u)
    ensures forall i :: 0 <= i < |op| && op[i] > 0.0 ==> u[i] == 1.0 / L1Norm(Indicator(op)) > 0.0
  {
    var e := Indicator(op);
    var s := L1Norm(e);
    forall i | 0 <= i < |op| && op[i] > 0.0
      ensures u[i] == 1.0 / s > 0.0
    {
      assert Times(u[i], s) == e[i] == 1.0;
      Reciprocal(s, u[i]);
    }
  }

  /** get_new_allocation away from the initial day, as a function of the
      current weights b, the predicted relatives ppr, today's opens and eps. */
  function NewAllocation(b: Vector, ppr: Vector, op: Vector, eps: real): (r: Result<Vector, AllocError>)
    requires |b| == |ppr| == |op|
    ensures r.Ok? ==> |r.value| == |b| && L1Norm(r.value) == 1.0
    ensures r.Err? && r.error == NoAvailableAssets <==> forall i :: 0 <= i < |op| ==> op[i] <= 0.0
  {
    var avail := AvailableIndices(op);
    NoneAvailable(op);
    if |avail| == 0 then
      Err(NoAvailableAssets)
    else
      var x := Gather(ppr, avail);
      var m := Mean(x);
      var lam := ClipLambda(ComputeLambda(eps, Gather(b, avail), x, m));
      Normalise(ProjectWeights(b, ppr, lam, m))
  }

  /** Which allocation get_new_allocation returns when some asset is
      available: the unnormalised move w divided by its 1-norm, so every
      entry keeps the sign of w and assets with a non-positive prediction get
      weight 0; ZeroNorm is reported exactly when every entry of w is 0. */
  lemma NewAllocationIsNormalisedMove(b: Vector, ppr: Vector, op: Vector, eps: real)
    requires |b| == |ppr| == |op|
    requires exists i :: 0 <= i < |op| && op[i] > 0.0
    ensures var avail := AvailableIndices(op);
            var x := Gather(ppr, avail);
            var w := ProjectWeights(b, ppr, ClipLambda(ComputeLambda(eps, Gather(b, avail), x, Mean(x))), Mean(x));
            var r := NewAllocation(b, ppr, op, eps);
            r == Normalise(w) &&
            (r.Ok? ==> L1Norm(w) > 0.0 && forall i :: 0 <= i < |b| ==> Times(r.value[i], L1Norm(w)) == w[i]) &&
            (r.Ok? ==> forall i :: 0 <= i < |b| && ppr[i] <= 0.0 ==> r.value[i] == 0.0) &&
            (r == Err(ZeroNorm) <==> forall i :: 0 <= i < |b| ==> w[i] == 0.0)
  {
    var avail := AvailableIndices(op);
    var x := Gather(ppr, avail);
    var w := ProjectWeights(b, ppr, ClipLambda(ComputeLambda(eps, Gather(b, avail), x, Mean(x))), Mean(x));
    var r := NewAllocation(b, ppr, op, eps);
    NoneAvailable(op);
    assert r == Normalise(w);
  }

  /** The indices are valid positions of a vector of length n. */
  predicate IndicesBelow(idx: seq<nat>, n: nat)
  {
    forall k :: 0 <= k < |idx| ==> idx[k] < n
  }

  /** Restricted to available assets whose prediction is positive, the
      unnormalised weights are the move b + lam * (x - m) of those assets. */
  lemma ProjectOnAvailable(b: Vector, ppr: Vector, lam: real, m: real, avail: seq<nat>)
    requires |b| == |ppr| && IndicesBelow(avail, |b|)
    requires forall k :: 0 <= k < |avail| ==> ppr[avail[k]] > 0.0
    ensures Gather(ProjectWeights(b, ppr, lam, m), avail) ==
            Add(Gather(b, avail), Scale(lam, Offset(Gather(ppr, avail), m)))
  {
    var s := Gather(ProjectWeights(b, ppr, lam, m), avail);
    var t := Add(Gather(b, avail), Scale(lam, Offset(Gather(ppr, avail), m)));
    forall k | 0 <= k < |avail| ensures s[k] == t[k] {}
  }

  /** Predicted return of the new weights on the available assets: the old
      predicted return plus lambda times the spread of the predictions
      around m, when m centres them (as their mean does). */
  lemma PredictedReturnOfMove(b: Vector, ppr: Vector, lam: real, m: real, avail: seq<nat>)
    requires |b| == |ppr| && IndicesBelow(avail, |b|)
    requires forall k :: 0 <= k < |avail| ==> ppr[avail[k]] > 0.0
    requires Sum(Offset(Gather(ppr, avail), m)) == 0.0
    ensures var x := Gather(ppr, avail);
            Dot(Gather(ProjectWeights(b, ppr, lam, m), avail), x) ==
            Dot(Gather(b, avail), x) + Times(lam, SqNorm(Offset(x, m)))
  {
    var x := Gather(ppr, avail);
    var d := Offset(x, m);
    ProjectOnAvailable(b, ppr, lam, m, avail);
    PassiveAggressiveDot(Gather(b, avail), d, x, lam);
    CenteredOffsetDot(x, m);
  }

  /** The step-size algebra: with v = d + lam * sq, the unclipped lambda
      raises the predicted return d to exactly eps when it is below eps and
      there is spread, and the clipped one never overshoots. */
  lemma TargetAlgebra(eps: real, d: real, sq: real, lam0: real, lam: real, v: real)
    requires sq >= 0.0 && lam0 >= 0.0
    requires sq == 0.0 || eps <= d ==> lam0 == 0.0
    requires sq != 0.0 && eps > d ==> Times(lam0, sq) == eps - d
    requires v == d + Times(lam, sq)
    requires lam == ClipLambda(lam0)
    ensures sq != 0.0 && lam0 <= LambdaCap ==> v == Max(eps, d)
    ensures d <= v <= Max(eps, d)
  {
    var p0, p := lam0 * sq, lam * sq;
    if sq == 0.0 || eps <= d {
      assert lam == 0.0;
      ZeroFactor(lam, sq, p);
    } else if lam0 <= LambdaCap {
      assert lam == lam0;
      SameProduct(lam, lam0, sq, p, p0);
    } else {
      assert 0.0 <= lam <= lam0;
      ProductMonotone(lam, lam0, sq, p, p0);
    }
  }

  lemma ZeroFactor(a: real, s: real, p: real)
    requires a == 0.0 && p == a * s
    ensures p == 0.0
  {}

  lemma SameProduct(a: real, b: real, s: real, p: real, q: real)
    requires a == b && p == a * s && q == b * s
    ensures p == q
  {}

  lemma ProductMonotone(a: real, b: real, s: real, p: real, q: real)
    requires 0.0 <= a <= b && s >= 0.0 && p == a * s && q == b * s
    ensures 0.0 <= p <= q
  {}

  /** The target property of the move for any centring m. */
  lemma MoveTarget(b: Vector, ppr: Vector, eps: real, m: real, avail: seq<nat>)
    requires |b| == |ppr| && IndicesBelow(avail, |b|)
    requires forall k :: 0 <= k < |avail| ==> ppr[avail[k]] > 0.0
    requires Sum(Offset(Gather(ppr, avail), m)) == 0.0
    ensures var x := Gather(ppr, avail);
            var bA := Gather(b, avail);
            var sq := SqNorm(Offset(x, m));
            var lam0 := ComputeLambda(eps, bA, x, m);
            var v := Dot(Gather(ProjectWeights(b, ppr, ClipLambda(lam0), m), avail), x);
            (sq != 0.0 && lam0 <= LambdaCap ==> v == Max(eps, Dot(bA, x))) &&
            Dot(bA, x) <= v <= Max(eps, Dot(bA, x))
  {
    var x := Gather(ppr, avail);
    var bA := Gather(b, avail);
    var sq := SqNorm(Offset(x, m));
    var lam0 := ComputeLambda(eps, bA, x, m);
    var lam := ClipLambda(lam0);
    PredictedReturnOfMove(b, ppr, lam, m, avail);
    TargetAlgebra(eps, Dot(bA, x), sq, lam0, lam,
                  Dot(Gather(ProjectWeights(b, ppr, lam, m), avail), x));
  }

  /** The passive-aggressive guarantee of OLMAR: on the available assets, the
      new (unnormalised) weights predict a return of max(eps, old return)
      when the predictions have spread and lambda is not clipped, and never
      less than the old return nor more than max(eps, old return). */
  lemma PassiveAggressiveTarget(b: Vector, ppr: Vector, op: Vector, eps: real)
    requires |b| == |ppr| == |op|
    requires var avail := AvailableIndices(op);
             |avail| > 0 && forall k :: 0 <= k < |avail| ==> ppr[avail[k]] > 0.0
    ensures var avail := AvailableIndices(op);
            var x := Gather(ppr, avail);
            var bA := Gather(b, avail);
            var sq := SqNorm(Offset(x, Mean(x)));
            var lam0 := ComputeLambda(eps, bA, x, Mean(x));
            var v := Dot(Gather(ProjectWeights(b, ppr, ClipLambda(lam0), Mean(x)), avail), x);
            (sq != 0.0 && lam0 <= LambdaCap ==> v == Max(eps, Dot(bA, x))) &&
            Dot(bA, x) <= v <= Max(eps, Dot(bA, x))
  {
    var avail := AvailableIndices(op);
    SumOffsetMean(Gather(ppr, avail));
    MoveTarget(b, ppr, eps, Mean(Gather(ppr, avail)), avail);
  }

  /** The hypothesis of PassiveAggressiveTarget that every available asset
      has a positive prediction is needed: the weight of an available asset
      with a non-positive prediction is set to 0 instead of moved, and the
      predicted return can overshoot max(eps, old return). Here b = [0, 1],
      predictions [2, -1], both assets open, eps = 1.25: lambda is 0.5, the
      weights become [0.75, 0] and predict 1.5 > 1.25. */
  lemma NonPositivePredictionOvershoots(b: Vector, ppr: Vector, op: Vector, eps: real)
    requires b == [0.0, 1.0] && ppr == [2.0, -1.0] && op == [1.0, 1.0] && eps == 1.25
    ensures |b| == |ppr| == |op|
    ensures var avail := AvailableIndices(op);
            var x := Gather(ppr, avail);
            var bA := Gather(b, avail);
            var lam := ClipLambda(ComputeLambda(eps, bA, x, Mean(x)));
            var v := Dot(Gather(ProjectWeights(b, ppr, lam, Mean(x)), avail), x);
            |avail| == 2 && ppr[avail[1]] <= 0.0 && v > Max(eps, Dot(bA, x))
  {
    ExampleAvailable();
    var avail := AvailableIndices(op);
    assert avail == [0, 1];
    GatherAll(ppr);
    GatherAll(b);
    var w := ProjectWeights(b, ppr, 0.5, 0.5);
    GatherAll(w);
    ExampleMean();
    ExampleMove();
    ExampleReturn();
  }

  lemma GatherAll(v: Vector)
    requires |v| == 2
    ensures Gather(v, [0, 1]) == v
  {
    var g := Gather(v, [0, 1]);
    assert g[0] == v[0] && g[1] == v[1];
  }

  lemma ExampleAvailable()
    ensures AvailableIndices([1.0, 1.0]) == [0, 1]
  {
    AllAvailable([1.0, 1.0]);
  }

  lemma ExampleMean()
    ensures Mean([2.0, -1.0]) == 0.5
  {
    var x := [2.0, -1.0];
    assert x[..1] == [2.0] && x[..1][..0] == [];
    assert Sum(x) == 1.0;
  }

  lemma ExampleSpread()
    ensures SqNorm(Offset([2.0, -1.0], 0.5)) == 4.5
  {
    var d := Offset([2.0, -1.0], 0.5);
    assert d == [1.5, -1.5];
    assert d[..1] == [1.5] && d[..1][..0] == [];
  }

  lemma ExampleReturn()
    ensures Dot([0.0, 1.0], [2.0, -1.0]) == -1.0
    ensures Dot([0.75, 0.0], [2.0, -1.0]) == 1.5
  {
    var x := [2.0, -1.0];
    assert x[..1] == [2.0] && x[..1][..0] == [];
    var u, v := [0.0, 1.0], [0.75, 0.0];
    assert u[..1] == [0.0] && u[..1][..0] == [];
    assert v[..1] == [0.75] && v[..1][..0] == [];
  }

  lemma ExampleMove()
    ensures ClipLambda(ComputeLambda(1.25, [0.0, 1.0], [2.0, -1.0], 0.5)) == 0.5
    ensures ProjectWeights([0.0, 1.0], [2.0, -1.0], 0.5, 0.5) == [0.75, 0.0]
  {
    ExampleSpread();
    ExampleReturn();
  }

  /** Passive case: when the current weights already predict a return of at
      least eps, every asset with a positive prediction keeps its weight. */
  lemma PassiveWhenAboveEps(b: Vector, ppr: Vector, eps: real, avail: seq<nat>)
    requires |b| == |ppr| && IndicesBelow(avail, |b|) && |avail| > 0
    requires var x := Gather(ppr, avail); eps <= Dot(Gather(b, avail), x)
    ensures var x := Gather(ppr, avail);
            var lam := ClipLambda(ComputeLambda(eps, Gather(b, avail), x, Mean(x)));
            forall i :: 0 <= i < |b| && ppr[i] > 0.0 ==> ProjectWeights(b, ppr, lam, Mean(x))[i] == b[i]
  {}

  /** When every available prediction is the same there is nothing to move
      towards, and lambda is zero. */
  lemma NoSpreadNoMove(b: Vector, ppr: Vector, eps: real, avail: seq<nat>)
    requires |b| == |ppr| && IndicesBelow(avail, |b|) && |avail| > 0
    requires forall k, l :: 0 <= k < |avail| && 0 <= l < |avail| ==> ppr[avail[k]] == ppr[avail[l]]
    ensures var x := Gather(ppr, avail);
            ComputeLambda(eps, Gather(b, avail), x, Mean(x)) == 0.0
  {
    var x := Gather(ppr, avail);
    ZeroSpreadIffConstant(x);
  }
}
