/** predict_price_relatives: the moving-average prediction of tomorrow's
    price relatives, relative to today's open. */
module Predict {
  import opened Wrappers
  import opened Vectors
  import opened Window

  /** Column j of a price matrix: one asset's prices, oldest first. */
  function Column(m: Matrix, j: nat): (c: Vector)
    requires forall r :: 0 <= r < |m| ==> j < |m[r]|
    ensures |c| == |m|
  {
    seq(|m|, r requires 0 <= r < |m| => m[r][j])
  }

  /** Division that yields 0 when the divisor is 0 (the behaviour assumed of util.silent_divide). */
  function SilentDivide(a: real, b: real): (q: real)
    ensures b != 0.0 ==> q * b == a
    ensures b == 0.0 ==> q == 0.0
  {
    if b == 0.0 then 0.0 else a / b
  }

  /** The mean of asset i's prices over the window closes and today's open
      (appended as the last row). */
  function MovingAverage(closes: Matrix, op: Vector, i: nat): real
    requires Rect(closes, |op|) && i < |op|
  {
    Mean(Column(closes + [op], i))
  }

  /** Entry i: asset i's moving average divided by today's open. */
  function PriceRelatives(closes: Matrix, op: Vector): (x: Vector)
    requires Rect(closes, |op|)
    ensures |x| == |op|
    ensures forall i :: 0 <= i < |op| && op[i] != 0.0 ==> x[i] * op[i] == MovingAverage(closes, op, i)
    ensures forall i :: 0 <= i < |op| && op[i] == 0.0 ==> x[i] == 0.0
  {
    seq(|op|, i requires 0 <= i < |op| => SilentDivide(MovingAverage(closes, op, i), op[i]))
  }

  /** predict_price_relatives(day) with the current window length. */
  function PredictPriceRelatives(data: MarketData, train: Option<Matrix>, n: nat, day: nat, window: int): (x: Vector)
    requires WellFormed(data, train, n) && day < |data.opens|
    ensures |x| == n
  {
    var w := WindowPrices(data, train, day, window);
    WindowRect(data, train, n, day, window);
    PriceRelatives(w.closes, w.todayOpen)
  }

  /** Every window row, like today's open, has one price per asset. */
  lemma WindowRect(data: MarketData, train: Option<Matrix>, n: nat, day: nat, window: int)
    requires WellFormed(data, train, n) && day < |data.opens|
    ensures var w := WindowPrices(data, train, day, window);
            Rect(w.closes, n) && |w.todayOpen| == n
  {
    var w := WindowPrices(data, train, day, window);
    if train.Some? && day < window {
      var past := TailRows(train.value, window - day);
      forall r | 0 <= r < |w.closes| ensures |w.closes[r]| == n {
        if r >= |past| {
          assert w.closes[r] == data.closes[r - |past|];
        }
      }
    }
  }

  /** The prediction is PriceRelatives over the recent history: with h the
      training closes followed by the live closes before `day`, and k the
      smaller of the window and |h|, the window is the last k rows of h. */
  lemma PredictionOnRecentHistory(data: MarketData, train: Option<Matrix>, n: nat, day: nat, window: int)
    requires WellFormed(data, train, n) && day < |data.opens|
    requires window >= 1
    ensures var h := History(train, data.closes, day);
            var recent := h[|h| - (if window <= |h| then window else |h|)..];
            |data.opens[day]| == n && Rect(recent, n) &&
            PredictPriceRelatives(data, train, n, day, window) == PriceRelatives(recent, data.opens[day])
  {
    WindowRect(data, train, n, day, window);
    WindowIsRecentHistory(data, train, day, window);
  }

  /** The prediction is the moving average of recent history: entry i times
      today's open i is the mean of asset i over the last k rows of the
      history and today's open; a zero open gives 0. */
  lemma PredictionIsMovingAverage(data: MarketData, train: Option<Matrix>, n: nat, day: nat, window: int, i: nat)
    requires WellFormed(data, train, n) && day < |data.opens|
    requires window >= 1 && i < n
    ensures var h := History(train, data.closes, day);
            var recent := h[|h| - (if window <= |h| then window else |h|)..];
            var op := data.opens[day];
            var x := PredictPriceRelatives(data, train, n, day, window);
            Rect(recent, |op|) &&
            (op[i] != 0.0 ==> Times(x[i], op[i]) == MovingAverage(recent, op, i)) &&
            (op[i] == 0.0 ==> x[i] == 0.0)
  {
    PredictionOnRecentHistory(data, train, n, day, window);
    var h := History(train, data.closes, day);
    var recent := h[|h| - (if window <= |h| then window else |h|)..];
    RelativeEntry(PredictPriceRelatives(data, train, n, day, window), recent, data.opens[day], i);
  }

  /** Entry i of a vector equal to PriceRelatives(closes, op). */
  lemma RelativeEntry(x: Vector, closes: Matrix, op: Vector, i: nat)
    requires Rect(closes, |op|) && i < |op| && x == PriceRelatives(closes, op)
    ensures op[i] != 0.0 ==> Times(x[i], op[i]) == MovingAverage(closes, op, i)
    ensures op[i] == 0.0 ==> x[i] == 0.0
  {}

  /** Positive prices give positive predictions: when today's open of asset
      i and every earlier close of it (training and live) are positive, the
      predicted relative of asset i is positive. */
  lemma PositiveHistoryPositivePrediction(data: MarketData, train: Option<Matrix>, n: nat, day: nat, window: int, i: nat)
    requires WellFormed(data, train, n) && day < |data.opens|
    requires window >= 1 && i < n
    requires data.opens[day][i] > 0.0
    requires forall r :: 0 <= r < day ==> data.closes[r][i] > 0.0
    requires train.Some? ==> forall r :: 0 <= r < |train.value| ==> train.value[r][i] > 0.0
    ensures PredictPriceRelatives(data, train, n, day, window)[i] > 0.0
  {
    PredictionOnRecentHistory(data, train, n, day, window);
    var h := History(train, data.closes, day);
    var k := if window <= |h| then window else |h|;
    HistoryColumnPositive(train, data.closes, day, i);
    SuffixColumnPositive(h, h[|h| - k..], i);
    PositiveEntry(PredictPriceRelatives(data, train, n, day, window), h[|h| - k..], data.opens[day], i);
  }

  /** Column i of the history is positive when it is positive in the
      training closes and in the live closes before `day`. */
  lemma HistoryColumnPositive(train: Option<Matrix>, closes: Matrix, day: nat, i: nat)
    requires day <= |closes|
    requires forall r :: 0 <= r < day ==> i < |closes[r]| && closes[r][i] > 0.0
    requires train.Some? ==> forall r :: 0 <= r < |train.value| ==> i < |train.value[r]| && train.value[r][i] > 0.0
    ensures var h := History(train, closes, day);
            forall r :: 0 <= r < |h| ==> i < |h[r]| && h[r][i] > 0.0
  {
    var t := if train.Some? then train.value else [];
    var h := History(train, closes, day);
    forall r | 0 <= r < |h| ensures i < |h[r]| && h[r][i] > 0.0 {
      if r >= |t| {
        assert h[r] == closes[r - |t|];
      }
    }
  }

  /** A positive column stays positive in every suffix. */
  lemma SuffixColumnPositive(h: Matrix, s: Matrix, i: nat)
    requires |s| <= |h| && s == h[|h| - |s|..]
    requires forall r :: 0 <= r < |h| ==> i < |h[r]| && h[r][i] > 0.0
    ensures forall r :: 0 <= r < |s| ==> i < |s[r]| && s[r][i] > 0.0
  {
    forall r | 0 <= r < |s| ensures i < |s[r]| && s[r][i] > 0.0 {
      assert s[r] == h[|h| - |s| + r];
    }
  }

  /** Entry i of a vector equal to PriceRelatives(closes, op) is positive
      when asset i's prices are. */
  lemma PositiveEntry(x: Vector, closes: Matrix, op: Vector, i: nat)
    requires Rect(closes, |op|) && i < |op| && op[i] > 0.0 && x == PriceRelatives(closes, op)
    requires forall r :: 0 <= r < |closes| ==> closes[r][i] > 0.0
    ensures x[i] > 0.0
  {
    PositivePricesPositiveRelative(closes, op, i);
  }

  /** Once the history holds at least `window` rows, each mean is taken over
      window + 1 prices: the last `window` closes and today's open. */
  lemma FullWindowAveragesWindowPlusOne(data: MarketData, train: Option<Matrix>, n: nat, day: nat, window: int, i: nat)
    requires WellFormed(data, train, n) && day < |data.opens| && i < n
    requires 1 <= window <= |History(train, data.closes, day)|
    ensures var w := WindowPrices(data, train, day, window);
            Rect(w.closes + [w.todayOpen], n) &&
            |Column(w.closes + [w.todayOpen], i)| == window + 1
  {
    WindowRect(data, train, n, day, window);
    WindowIsRecentHistory(data, train, day, window);
  }

  // Arithmetic on plain reals, kept apart from the sequence reasoning.

  lemma DivideAsScale(a: real, o: real, q: real, k: real)
    requires o != 0.0 && q == a / o && k == 1.0 / o
    ensures q == k * a
  {}

  lemma MeanOfScaledSum(s: real, t: real, n: real, k: real, m1: real, m2: real)
    requires n > 0.0 && t == k * s && m1 == t / n && m2 == s / n
    ensures m1 == k * m2
  {}

  lemma QuotientPositive(a: real, b: real, q: real)
    requires a > 0.0 && b > 0.0 && q == a / b
    ensures q > 0.0
  {}

  lemma QuotientOfEqual(a: real, b: real, q: real)
    requires b != 0.0 && a == b && q == a / b
    ensures q == 1.0
  {}

  lemma {:induction false} SumPositive(v: Vector)
    requires |v| > 0
    requires forall i :: 0 <= i < |v| ==> v[i] > 0.0
    ensures Sum(v) > 0.0
  {
    var p := v[..|v| - 1];
    forall i | 0 <= i < |p| ensures p[i] >= 0.0 {
      assert p[i] == v[i];
    }
    SumNonNegative(p);
    SumLast(v);
  }

  /** Scaling a vector scales its mean. */
  lemma MeanScale(k: real, c: Vector)
    requires |c| > 0
    ensures Mean(Scale(k, c)) == k * Mean(c)
  {
    SumScale(k, c);
    MeanOfScaledSum(Sum(c), Sum(Scale(k, c)), |c| as real, k, Mean(Scale(k, c)), Mean(c));
  }

  /** The moving-average formula x = (1/w)(p_t/p_t + p_{t-1}/p_t + ...): the
      relative is the mean of the ratios of each window price to today's open. */
  lemma RelativeIsMeanOfRatios(closes: Matrix, op: Vector, i: nat)
    requires Rect(closes, |op|) && i < |op| && op[i] != 0.0
    ensures PriceRelatives(closes, op)[i] == Mean(Scale(1.0 / op[i], Column(closes + [op], i)))
  {
    var c := Column(closes + [op], i);
    MeanScale(1.0 / op[i], c);
    DivideAsScale(Mean(c), op[i], PriceRelatives(closes, op)[i], 1.0 / op[i]);
  }

  /** Positive prices give a positive predicted relative. */
  lemma PositivePricesPositiveRelative(closes: Matrix, op: Vector, i: nat)
    requires Rect(closes, |op|) && i < |op| && op[i] > 0.0
    requires forall r :: 0 <= r < |closes| ==> closes[r][i] > 0.0
    ensures PriceRelatives(closes, op)[i] > 0.0
  {
    var c := Column(closes + [op], i);
    forall r | 0 <= r < |c| ensures c[r] > 0.0 {
      if r < |closes| {
        assert c[r] == closes[r][i];
      }
    }
    SumPositive(c);
    QuotientPositive(Sum(c), |c| as real, Mean(c));
    QuotientPositive(Mean(c), op[i], PriceRelatives(closes, op)[i]);
  }

  /** When an asset's window closes all equal today's open, its predicted relative is 1. */
  lemma FlatPricesUnitRelative(closes: Matrix, op: Vector, i: nat)
    requires Rect(closes, |op|) && i < |op| && op[i] != 0.0
    requires forall r :: 0 <= r < |closes| ==> closes[r][i] == op[i]
    ensures PriceRelatives(closes, op)[i] == 1.0
  {
    var c := Column(closes + [op], i);
    forall r | 0 <= r < |c| ensures c[r] == op[i] {
      if r < |closes| {
        assert c[r] == closes[r][i];
      }
    }
    SumConstant(c, op[i]);
    MeanOfConstant(|c| as real, op[i], Sum(c));
    QuotientOfEqual(Mean(c), op[i], PriceRelatives(closes, op)[i]);
  }
}
