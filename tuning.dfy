/** Hyperparameter tuning of tune_hyperparams: the window-major product of
    the window and epsilon ranges, the validation each candidate meets when
    a trial portfolio is built from it, and the choice of the first
    candidate with the highest score. */
module Tuning {
  import opened Wrappers

  /** Number of past days a trial portfolio is run over; no tuning happens
      until the current day is past it. */
  const TuneDuration: int := 10

  /** The two configuration errors of the OLMAR constructor. */
  datatype ConfigError =
    | EpsTooSmall     // eps <= 1
    | WindowTooSmall  // window < 1

  /** Why tuning can fail: a candidate the constructor refuses, or a grid
      with no candidate at all (the maximum of an empty list). */
  datatype TuneError =
    | TrialRejected(reason: ConfigError)
    | EmptyGrid

  /** The constructor's validation, epsilon first. */
  function CheckConfig(window: int, eps: real): (r: Outcome<ConfigError>)
    ensures r.Pass? <==> eps > 1.0 && window >= 1
    ensures r == Fail(EpsTooSmall) <==> eps <= 1.0
    ensures r == Fail(WindowTooSmall) <==> eps > 1.0 && window < 1
  {
    if eps <= 1.0 then Fail(EpsTooSmall)
    else if window < 1 then Fail(WindowTooSmall)
    else Pass
  }

  /** The Cartesian product of the two ranges, in itertools.product order:
      for each window in turn, every epsilon. */
  function Combos(ws: seq<int>, es: seq<real>): (c: seq<(int, real)>)
    ensures |c| == |ws| * |es|
  {
    if |ws| == 0 then []
    else
      var w := ws[|ws| - 1];
      RowLength(|ws|, |es|, (|ws| - 1) * |es|, |ws| * |es|);
      Combos(ws[..|ws| - 1], es) + seq(|es|, j requires 0 <= j < |es| => (w, es[j]))
  }

  lemma RowLength(w: int, n: int, before: int, all: int)
    requires before == (w - 1) * n && all == w * n
    ensures all == before + n
  {}

  lemma RowIndex(i: int, w: int, n: int, j: int, k: int, before: int)
    requires 0 <= i < w - 1 && 0 <= j < n && k == i * n + j && before == (w - 1) * n
    ensures k < before
  {
    assert (i + 1) * n <= (w - 1) * n;
  }

  lemma LastRowIndex(w: int, n: int, j: int, k: int, before: int)
    requires k == (w - 1) * n + j && before == (w - 1) * n
    ensures k - before == j
  {}

  /** Candidate (i, j) of the grid is the pair of the i-th window and the
      j-th epsilon, at position i * |es| + j. */
  lemma {:induction false} ComboAt(ws: seq<int>, es: seq<real>, i: nat, j: nat)
    requires i < |ws| && j < |es|
    ensures i * |es| + j < |Combos(ws, es)|
    ensures Combos(ws, es)[i * |es| + j] == (ws[i], es[j])
  {
    var p := ws[..|ws| - 1];
    var before := (|ws| - 1) * |es|;
    assert |Combos(p, es)| == before;
    if i < |ws| - 1 {
      RowIndex(i, |ws|, |es|, j, i * |es| + j, before);
      ComboAt(p, es, i, j);
      assert p[i] == ws[i];
    } else {
      LastRowIndex(|ws|, |es|, j, i * |es| + j, before);
    }
  }

  /** Every entry of the grid is a window of the first range paired with an
      epsilon of the second. */
  lemma {:induction false} ComboMembers(ws: seq<int>, es: seq<real>, k: nat)
    requires k < |Combos(ws, es)|
    ensures Combos(ws, es)[k].0 in ws && Combos(ws, es)[k].1 in es
  {
    var p := ws[..|ws| - 1];
    if k < |Combos(p, es)| {
      ComboMembers(p, es, k);
    }
  }

  /** The score of every candidate, in grid order. */
  function Scores(combos: seq<(int, real)>, score: (int, real) -> real): (s: seq<real>)
    ensures |s| == |combos|
  {
    seq(|combos|, k requires 0 <= k < |combos| => score(combos[k].0, combos[k].1))
  }

  /** sharpe_ratios.index(max(sharpe_ratios)): the position of the first
      highest entry. */
  function FirstMaxIndex(s: seq<real>): (k: nat)
    requires |s| > 0
    ensures k < |s|
    ensures forall i :: 0 <= i < |s| ==> s[i] <= s[k]
    ensures forall i :: 0 <= i < k ==> s[i] < s[k]
  {
    if |s| == 1 then 0
    else
      var k := FirstMaxIndex(s[..|s| - 1]);
      assert forall i :: 0 <= i < |s| - 1 ==> s[..|s| - 1][i] == s[i];
      if s[|s| - 1] > s[k] then |s| - 1 else k
  }

  /** The first maximum is the only position that is maximal and strictly
      above everything before it. */
  lemma FirstMaxUnique(s: seq<real>, k: nat)
    requires k < |s|
    requires forall i :: 0 <= i < |s| ==> s[i] <= s[k]
    requires forall i :: 0 <= i < k ==> s[i] < s[k]
    ensures k == FirstMaxIndex(s)
  {
  }

  /** The first candidate the constructor refuses, if any. */
  function FirstRejected(combos: seq<(int, real)>): (r: Option<ConfigError>)
    ensures r.None? <==> forall k :: 0 <= k < |combos| ==> CheckConfig(combos[k].0, combos[k].1).Pass?
    ensures r.Some? ==> exists k :: 0 <= k < |combos| && CheckConfig(combos[k].0, combos[k].1) == Fail(r.value) &&
                          forall i :: 0 <= i < k ==> CheckConfig(combos[i].0, combos[i].1).Pass?
  {
    if |combos| == 0 then None
    else
      var p := combos[..|combos| - 1];
      assert forall k :: 0 <= k < |p| ==> p[k] == combos[k];
      match FirstRejected(p)
      case Some(e) => Some(e)
      case None =>
        var c := combos[|combos| - 1];
        match CheckConfig(c.0, c.1)
        case Fail(e) => Some(e)
        case Pass => None
  }

  /** A rejection met on a prefix of the grid is the grid's first rejection. */
  lemma {:induction false} RejectedPrefix(combos: seq<(int, real)>, i: nat, e: ConfigError)
    requires i <= |combos| && FirstRejected(combos[..i]) == Some(e)
    ensures FirstRejected(combos) == Some(e)
    decreases |combos| - i
  {
    if i < |combos| {
      var q := combos[..i + 1];
      assert q[..i] == combos[..i];
      assert FirstRejected(q) == Some(e);
      assert combos[..i + 1][..i + 1] == q;
      RejectedPrefix(combos, i + 1, e);
    } else {
      assert combos[..i] == combos;
    }
  }

  /** The outcome of tuning over a grid: the first rejected candidate, an
      empty grid, or the first candidate with the highest score. */
  function Tune(combos: seq<(int, real)>, score: (int, real) -> real): (r: Result<(int, real), TuneError>)
    ensures r.Ok? ==> r.value in combos
    ensures r == Err(EmptyGrid) <==> |combos| == 0
  {
    match FirstRejected(combos)
    case Some(e) => Err(TrialRejected(e))
    case None =>
      if |combos| == 0 then Err(EmptyGrid)
      else Ok(combos[FirstMaxIndex(Scores(combos, score))])
  }

  /** What tuning promises: the chosen pair is one a valid portfolio can be
      built from, it scores at least as well as every candidate, and every
      candidate before it in the grid scores strictly worse. */
  lemma TuneSelectsFirstBest(combos: seq<(int, real)>, score: (int, real) -> real)
    requires Tune(combos, score).Ok?
    ensures var (w, e) := Tune(combos, score).value;
            CheckConfig(w, e).Pass? &&
            exists k :: 0 <= k < |combos| && combos[k] == (w, e) &&
              (forall i :: 0 <= i < |combos| ==> score(combos[i].0, combos[i].1) <= score(w, e)) &&
              (forall i :: 0 <= i < k ==> score(combos[i].0, combos[i].1) < score(w, e))
  {
    var s := Scores(combos, score);
    var k := FirstMaxIndex(s);
    assert combos[k] == Tune(combos, score).value;
    assert forall i :: 0 <= i < |combos| ==> s[i] == score(combos[i].0, combos[i].1);
  }

  /** Tuning fails with a rejection exactly when some candidate is invalid,
      and the reason is that of the first invalid one. */
  lemma TuneRejects(combos: seq<(int, real)>, score: (int, real) -> real)
    ensures Tune(combos, score).Err? && Tune(combos, score).error.TrialRejected? <==>
            exists k :: 0 <= k < |combos| && CheckConfig(combos[k].0, combos[k].1).Fail?
    ensures Tune(combos, score).Err? && Tune(combos, score).error.TrialRejected? ==>
            exists k :: 0 <= k < |combos| &&
              CheckConfig(combos[k].0, combos[k].1) == Fail(Tune(combos, score).error.reason) &&
              forall i :: 0 <= i < k ==> CheckConfig(combos[i].0, combos[i].1).Pass?
  {
  }
}
