/** The OLMAR portfolio object: its hyperparameters (window and epsilon), the
    history of their values, the allocation step and the tuning step that
    replaces the hyperparameters with the best ones in hindsight. */
module Olmar {
  import opened Wrappers
  import opened Vectors
  import opened Window
  import opened Predict
  import opened Allocation
  import opened Tuning

  class Olmar {
    /** Live and training market data and the number of assets. */
    const data: MarketData
    const train: Option<Matrix>
    const numStocks: nat
    /** The grid searched when tuning. */
    const windowRange: seq<int>
    const epsRange: seq<real>

    /** The current allocation (kept up to date by the Portfolio base class). */
    var b: Vector
    var window: int
    var eps: real
    /** Every value the hyperparameters have held, oldest first. */
    var windowHist: seq<int>
    var epsHist: seq<real>

    /** The object invariant: the data has one price per asset, the current
        hyperparameters pass the constructor's validation, and each history
        ends with the current value. */
    ghost predicate Valid()
      reads this
    {
      WellFormed(data, train, numStocks) && |b| == numStocks &&
      CheckConfig(window, eps).Pass? &&
      |windowHist| == |epsHist| > 0 &&
      windowHist[|windowHist| - 1] == window && epsHist[|epsHist| - 1] == eps
    }

    /** __init__ on a configuration that passes validation. */
    constructor (data: MarketData, train: Option<Matrix>, numStocks: nat, initB: Vector,
                 window: int, eps: real, windowRange: seq<int>, epsRange: seq<real>)
      requires WellFormed(data, train, numStocks) && |initB| == numStocks
      requires CheckConfig(window, eps).Pass?
      ensures Valid()
      ensures this.data == data && this.train == train && this.numStocks == numStocks
      ensures this.windowRange == windowRange && this.epsRange == epsRange
      ensures b == initB && this.window == window && this.eps == eps
      ensures windowHist == [window] && epsHist == [eps]
    {
      this.data := data;
      this.train := train;
      this.numStocks := numStocks;
      this.windowRange := windowRange;
      this.epsRange := epsRange;
      b := initB;
      this.window := window;
      this.eps := eps;
      windowHist := [window];
      epsHist := [eps];
    }

    /** __init__ in full: the validation raises before anything is built. */
    static method Create(data: MarketData, train: Option<Matrix>, numStocks: nat, initB: Vector,
                         window: int, eps: real, windowRange: seq<int>, epsRange: seq<real>)
      returns (r: Result<Olmar, ConfigError>)
      requires WellFormed(data, train, numStocks) && |initB| == numStocks
      ensures r.Err? <==> CheckConfig(window, eps).Fail?
      ensures r.Err? ==> r.error == CheckConfig(window, eps).error
      ensures r.Ok? ==> fresh(r.value) && r.value.Valid() && r.value.b == initB &&
                        r.value.window == window && r.value.eps == eps &&
                        r.value.windowHist == [window] && r.value.epsHist == [eps]
    {
      match CheckConfig(window, eps)
      case Fail(e) =>
        r := Err(e);
      case Pass =>
        var o := new Olmar(data, train, numStocks, initB, window, eps, windowRange, epsRange);
        r := Ok(o);
    }

    /** get_new_allocation: the uniform allocation on the first day when there
        is no training data; otherwise the passive-aggressive move of b
        towards the predicted relatives, built asset by asset and normalised. */
    method GetNewAllocation(day: nat, init: bool) returns (r: Result<Vector, AllocError>)
      requires Valid() && day < |data.opens|
      ensures r == if init && train.None? then UniformAllocation(data.opens[day])
                   else NewAllocation(b, PredictPriceRelatives(data, train, numStocks, day, window),
                                      data.opens[day], eps)
    {
      var op := data.opens[day];
      if init && train.None? {
        return UniformAllocation(op);
      }
      var ppr := PredictPriceRelatives(data, train, numStocks, day, window);
      var avail := AvailableIndices(op);
      if |avail| == 0 {
        return Err(NoAvailableAssets);
      }
      var cur := b;
      var x := Gather(ppr, avail);
      var m := Mean(x);
      var lam := ComputeLambda(eps, Gather(cur, avail), x, m);
      lam := ClipLambda(lam);
      var nb := MoveAvailable(cur, ppr, lam, m);
      r := Normalise(nb);
    }

    /** The loop of get_new_allocation: a zero array in which every asset with
        a positive prediction receives its moved weight. */
    static method MoveAvailable(cur: Vector, ppr: Vector, lam: real, m: real) returns (w: Vector)
      requires |cur| == |ppr|
      ensures w == ProjectWeights(cur, ppr, lam, m)
    {
      var nb := new real[|cur|](_ => 0.0);
      for i := 0 to |cur|
        invariant forall k :: 0 <= k < i ==> nb[k] == ProjectWeights(cur, ppr, lam, m)[k]
        invariant forall k :: i <= k < |cur| ==> nb[k] == 0.0
      {
        if ppr[i] > 0.0 {
          nb[i] := MoveWeight(cur[i], ppr[i], lam, m);
        }
      }
      w := nb[..];
    }

    /** The loop of tune_hyperparams: build a trial portfolio for each
        candidate in turn and record its score; the first candidate the
        constructor refuses ends the loop. */
    static method ScoreGrid(combos: seq<(int, real)>, score: (int, real) -> real)
      returns (r: Result<seq<real>, TuneError>)
      ensures FirstRejected(combos).Some? ==> r == Err(TrialRejected(FirstRejected(combos).value))
      ensures FirstRejected(combos).None? ==> r == Ok(Scores(combos, score))
    {
      var scores: seq<real> := [];
      var i := 0;
      while i < |combos|
        invariant 0 <= i <= |combos|
        invariant FirstRejected(combos[..i]).None?
        invariant scores == Scores(combos[..i], score)
      {
        var (w, e) := combos[i];
        var check := CheckConfig(w, e);
        if check.Fail? {
          assert combos[..i + 1][..i] == combos[..i];
          RejectedPrefix(combos, i + 1, check.error);
          return Err(TrialRejected(check.error));
        }
        scores := scores + [score(w, e)];
        i := i + 1;
      }
      assert combos[..i] == combos;
      return Ok(scores);
    }

    /** tune_hyperparams: after the first TuneDuration days, score every
        (window, eps) of the grid and adopt the first best pair, recording it
        in both histories. A candidate the constructor refuses, or an empty
        grid, aborts tuning with nothing changed. The score of a pair stands
        for the Sharpe ratio of a fresh portfolio run with it over the last
        TuneDuration days. */
    method TuneHyperparams(curDay: int, score: (int, real) -> real) returns (err: Option<TuneError>)
      requires Valid()
      modifies this
      ensures Valid() && b == old(b)
      ensures curDay <= TuneDuration ==>
                err.None? && window == old(window) && eps == old(eps) &&
                windowHist == old(windowHist) && epsHist == old(epsHist)
      ensures curDay > TuneDuration ==>
                var t := Tune(Combos(windowRange, epsRange), score);
                (t.Err? ==> err == Some(t.error) && window == old(window) && eps == old(eps) &&
                            windowHist == old(windowHist) && epsHist == old(epsHist)) &&
                (t.Ok? ==> err.None? && window == t.value.0 && eps == t.value.1 &&
                           windowHist == old(windowHist) + [t.value.0] &&
                           epsHist == old(epsHist) + [t.value.1])
    {
      if curDay <= TuneDuration {
        return None;
      }
      var combos := Combos(windowRange, epsRange);
      var scored := ScoreGrid(combos, score);
      if scored.Err? {
        return Some(scored.error);
      }
      var scores := scored.value;
      if |scores| == 0 {
        return Some(EmptyGrid);
      }
      var best := combos[FirstMaxIndex(scores)];
      TuneSelectsFirstBest(combos, score);
      window := best.0;
      eps := best.1;
      epsHist := epsHist + [best.1];
      windowHist := windowHist + [best.0];
      return None;
    }
  }
}
