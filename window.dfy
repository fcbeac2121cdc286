/** The price window of get_window_prices: the closes of the days before
    `day`, taken from the live series and, when the live series is too short,
    from the end of the training series. */
module Window {
  import opened Wrappers
  import opened Vectors

  /** Prices by day: row d holds the price of every asset on day d. */
  type Matrix = seq<Vector>

  /** Raw (not relative) opening and closing prices of the live period. */
  datatype MarketData = MarketData(opens: Matrix, closes: Matrix)

  /** Every row has one entry per asset. */
  predicate Rect(m: Matrix, n: nat)
  {
    forall r :: 0 <= r < |m| ==> |m[r]| == n
  }

  /** Live opens and closes cover the same days, and the training closes (if
      any) hold the same assets. */
  predicate WellFormed(data: MarketData, train: Option<Matrix>, n: nat)
  {
    |data.opens| == |data.closes| && Rect(data.opens, n) && Rect(data.closes, n) &&
    (train.Some? ==> Rect(train.value, n))
  }

  /** What get_window_prices returns: the effective window size, the window's
      closes (oldest first) and today's opens. */
  datatype PriceWindow = PriceWindow(size: int, closes: Matrix, todayOpen: Vector)

  /** Python's `m[-k:]` for k > 0: the last k rows, or every row when there are fewer. */
  function TailRows(m: Matrix, k: nat): (t: Matrix)
    requires k > 0
    ensures |t| == if k <= |m| then k else |m|
    ensures t == m[|m| - |t|..]
  {
    if k <= |m| then m[|m| - k..] else m
  }

  /** The closes known before `day`: every training close, then the live closes of days 0 .. day-1. */
  function History(train: Option<Matrix>, closes: Matrix, day: nat): (h: Matrix)
    requires day <= |closes|
    ensures |h| == (if train.Some? then |train.value| else 0) + day
  {
    (if train.Some? then train.value else []) + closes[..day]
  }

  /** get_window_prices(day, window). */
  function WindowPrices(data: MarketData, train: Option<Matrix>, day: nat, window: int): (w: PriceWindow)
    requires day < |data.opens| == |data.closes|
    ensures w.todayOpen == data.opens[day]
    ensures train.None? || day >= window ==>
              w.size == (if day < window then day else window) &&
              |w.closes| == (if w.size < 0 then 0 else w.size) &&
              forall r :: 0 <= r < |w.closes| ==> w.closes[r] == data.closes[day - w.size + r]
    ensures train.Some? && day < window ==>
              w.size == window &&
              var past := TailRows(train.value, window - day);
              |w.closes| == |past| + day &&
              (forall r :: 0 <= r < |past| ==> w.closes[r] == train.value[|train.value| - |past| + r]) &&
              (forall r :: 0 <= r < day ==> w.closes[|past| + r] == data.closes[r])
  {
    if train.None? || day >= window then
      var size := if day < window then day else window;
      PriceWindow(size, LiveCloses(data.closes, day, size), data.opens[day])
    else
      PriceWindow(window, TrainedCloses(train.value, data.closes, day, window), data.opens[day])
  }

  /** The live closes of days day-size .. day-1; a slice [day - size : day]
      with size < 0 is empty in Python. */
  function LiveCloses(closes: Matrix, day: nat, size: int): (cl: Matrix)
    requires day < |closes| && size <= day
    ensures |cl| == (if size < 0 then 0 else size)
    ensures forall r :: 0 <= r < |cl| ==> cl[r] == closes[day - size + r]
  {
    if size < 0 then [] else closes[day - size..day]
  }

  /** The window reaching back into the training closes: the last
      window - day training rows, then the live closes of days 0 .. day-1. */
  function TrainedCloses(train: Matrix, closes: Matrix, day: nat, window: int): (cl: Matrix)
    requires day < |closes| && day < window
    ensures var past := TailRows(train, window - day);
            |cl| == |past| + day &&
            (forall r :: 0 <= r < |past| ==> cl[r] == train[|train| - |past| + r]) &&
            (forall r :: 0 <= r < day ==> cl[|past| + r] == closes[r])
  {
    var past := TailRows(train, window - day);
    if day == 0 then past
    else past + closes[..day]
  }

  /** Whatever branch is taken, the window is the most recent part of the
      history before `day`: its last min(window, |history|) rows. */
  lemma WindowIsRecentHistory(data: MarketData, train: Option<Matrix>, day: nat, window: int)
    requires day < |data.opens| == |data.closes|
    requires window >= 1
    ensures var w := WindowPrices(data, train, day, window);
            var h := History(train, data.closes, day);
            |w.closes| == (if window <= |h| then window else |h|) &&
            w.closes == h[|h| - |w.closes|..]
  {
    var t := if train.Some? then train.value else [];
    var cl := WindowPrices(data, train, day, window).closes;
    assert History(train, data.closes, day) == t + data.closes[..day];
    if train.None? || day >= window {
      var size := if day < window then day else window;
      assert cl == LiveCloses(data.closes, day, size);
      LiveWindowIsRecent(t, data.closes, day, size);
    } else {
      assert cl == TrainedCloses(train.value, data.closes, day, window);
      TrainedWindowIsRecent(t, data.closes, day, window);
    }
  }

  /** The live-only branch: the last `size` closes before `day` are the last
      `size` rows of the history. */
  lemma LiveWindowIsRecent(t: Matrix, closes: Matrix, day: nat, size: int)
    requires 0 <= size <= day < |closes|
    ensures LiveCloses(closes, day, size) == (t + closes[..day])[|t| + day - size..]
  {
    var c := closes[..day];
    assert LiveCloses(closes, day, size) == c[day - size..];
    SuffixWithinRight(t, c, size);
  }

  /** The branch reaching into the training closes: the training tail followed
      by every live close before `day` is a suffix of the history. */
  lemma TrainedWindowIsRecent(t: Matrix, closes: Matrix, day: nat, window: int)
    requires day < |closes| && day < window
    ensures var cl := TrainedCloses(t, closes, day, window);
            cl == (t + closes[..day])[|t| + day - |cl|..]
  {
    var c := closes[..day];
    var past := TailRows(t, window - day);
    assert TrainedCloses(t, closes, day, window) == past + c;
    SuffixAcrossJoin(t, c, |past| + day);
  }

  /** A suffix no longer than b of a + b is a suffix of b. */
  lemma SuffixWithinRight(a: Matrix, b: Matrix, k: nat)
    requires k <= |b|
    ensures (a + b)[|a + b| - k..] == b[|b| - k..]
  {
    var s, t := (a + b)[|a + b| - k..], b[|b| - k..];
    forall i | 0 <= i < k ensures s[i] == t[i] {}
  }

  /** A suffix of a + b at least as long as b is a suffix of a followed by b. */
  lemma SuffixAcrossJoin(a: Matrix, b: Matrix, k: nat)
    requires |b| <= k <= |a| + |b|
    ensures (a + b)[|a + b| - k..] == a[|a| + |b| - k..] + b
  {
    var s, t := (a + b)[|a + b| - k..], a[|a| + |b| - k..] + b;
    forall i | 0 <= i < k ensures s[i] == t[i] {}
  }

  /** Without training data, day 0 has an empty window. */
  lemma FirstDayWithoutTrainingIsEmpty(data: MarketData, window: int)
    requires 0 < |data.opens| == |data.closes|
    requires window >= 1
    ensures WindowPrices(data, None, 0, window) == PriceWindow(0, [], data.opens[0])
  {}
}
