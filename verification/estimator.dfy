/**
 The price-window bookkeeping of the volatility and performance estimator.
 The provider's rows arrive oldest first; the estimator reverses the
 closes so that the most recent comes first, forms the `window` ratios of
 adjacent closes whose logarithms are the daily log-returns, reports the
 simple return over the window and the latest close, and rejects a series
 whose last row is more than four days old.
 */
module Estimator {
  import opened Results

  /** Trading days in the estimation window. */
  const WindowSize: nat := 20

  /** The most days the last row may lie before today. */
  const StalenessDays: int := 4

  /** One data line of the provider's history: a day number and its close. */
  datatype Row = Row(day: int, close: real)

  datatype EstimateError = InsufficientHistory | StaleData

  /**
   What the estimator derives from one series: the adjacent-close ratios
   (most recent first), the performance over the window and the latest close.
   */
  datatype Estimate = Estimate(ratios: seq<real>, performance: real, price: real)

  predicate PositiveCloses(rows: seq<Row>)
  {
    forall i :: 0 <= i < |rows| ==> rows[i].close > 0.0
  }

  /** The closing prices, in the provider's (chronological) order. */
  function Closes(rows: seq<Row>): (c: seq<real>)
    ensures |c| == |rows|
    ensures forall i :: 0 <= i < |rows| ==> c[i] == rows[i].close
  {
    seq(|rows|, i requires 0 <= i < |rows| => rows[i].close)
  }

  /** `s` in reverse order. */
  function Reverse(s: seq<real>): (r: seq<real>)
    ensures |r| == |s|
    ensures forall i :: 0 <= i < |s| ==> r[i] == s[|s| - 1 - i]
  {
    if |s| == 0 then [] else [s[|s| - 1]] + Reverse(s[..|s| - 1])
  }

  /** Reversing twice restores the original order. */
  lemma ReverseInvolutive(s: seq<real>)
    ensures Reverse(Reverse(s)) == s
  {
  }

  /** The `window` ratios prices[i] / prices[i+1] of adjacent closes, most recent first. */
  function WindowRatios(prices: seq<real>, window: nat): (r: seq<real>)
    requires |prices| > window
    requires forall i :: 0 <= i < |prices| ==> prices[i] > 0.0
    ensures |r| == window
  {
    seq(window, i requires 0 <= i < window => prices[i] / prices[i + 1])
  }

  /** Left-to-right product. */
  function Product(s: seq<real>): real
  {
    if |s| == 0 then 1.0 else Product(s[..|s| - 1]) * s[|s| - 1]
  }

  /** Two adjacent ratios chain: (a/b)·(b/c) = a/c. */
  lemma ChainRatio(a: real, b: real, c: real)
    requires b > 0.0 && c > 0.0
    ensures (a / b) * (b / c) == a / c
  {
  }

  /**
   The ratios telescope: their product is the most recent close over the
   oldest close in the window, so the log-returns add up to the log of the
   window's simple return plus one.
   */
  lemma {:induction false} RatiosTelescope(prices: seq<real>, window: nat)
    requires |prices| > window
    requires forall i :: 0 <= i < |prices| ==> prices[i] > 0.0
    ensures Product(WindowRatios(prices, window)) == prices[0] / prices[window]
  {
    if window > 0 {
      var w := window - 1;
      assert WindowRatios(prices, window)[..w] == WindowRatios(prices, w);
      RatiosTelescope(prices, w);
      ChainRatio(prices[0], prices[w], prices[window]);
    }
  }

  /** The staleness rule: the last row may be at most four days before today. */
  predicate IsFresh(today: int, lastDay: int)
  {
    today - lastDay <= StalenessDays
  }

  /**
   Estimate one series. Fewer than `window + 1` rows make the window
   indexing fail, which is checked before staleness; a fresh series yields
   the ratios, the performance and the latest close.
   */
  function EstimateSeries(rows: seq<Row>, window: nat, today: int): (r: Result<Estimate, EstimateError>)
    requires PositiveCloses(rows)
    ensures |rows| <= window ==> r == Err(InsufficientHistory)
    ensures |rows| > window && !IsFresh(today, rows[|rows| - 1].day) ==> r == Err(StaleData)
    ensures r.Ok? <==> |rows| > window && IsFresh(today, rows[|rows| - 1].day)
    ensures r.Ok? ==>
      var n := |rows|;
      && r.value.price == rows[n - 1].close
      && |r.value.ratios| == window
      && (forall i :: 0 <= i < window ==> r.value.ratios[i] == rows[n - 1 - i].close / rows[n - 2 - i].close)
      && r.value.performance == rows[n - 1].close / rows[n - 1 - window].close - 1.0
  {
    var prices := Reverse(Closes(rows));
    if |prices| <= window then Err(InsufficientHistory)
    else if !IsFresh(today, rows[|rows| - 1].day) then Err(StaleData)
    else Ok(Estimate(WindowRatios(prices, window), prices[0] / prices[window] - 1.0, prices[0]))
  }

  /** A fresh series' performance plus one is the product of its ratios. */
  lemma PerformanceIsProductOfRatios(rows: seq<Row>, window: nat, today: int)
    requires PositiveCloses(rows)
    ensures match EstimateSeries(rows, window, today)
      case Ok(e) => Product(e.ratios) == e.performance + 1.0 && e.performance > -1.0
      case Err(_) => true
  {
    var r := EstimateSeries(rows, window, today);
    if r.Ok? {
      var prices := Reverse(Closes(rows));
      RatiosTelescope(prices, window);
      assert prices[0] / prices[window] > 0.0;
    }
  }

  /** A last row dated in the future counts as fresh. */
  lemma FutureDateAccepted(rows: seq<Row>, window: nat, today: int)
    requires PositiveCloses(rows)
    requires |rows| > window
    requires rows[|rows| - 1].day > today
    ensures EstimateSeries(rows, window, today).Ok?
  {
  }
}
