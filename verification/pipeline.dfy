/**
 The whole run: parse the symbols, estimate every symbol's series in
 order (the first failure aborts the run), weight the symbols by inverse
 volatility and rebalance the holdings at the latest prices. The price
 histories, the volatilities, today's day number and the holdings are
 inputs: the script fetches, computes or prompts for them.
 */
module Pipeline {
  import opened Results
  import opened Sums
  import Symbols
  import Estimator
  import Allocator
  import Rebalancer

  datatype Failure =
    | EstimateFailed(index: nat, reason: Estimator.EstimateError)
    | ZeroPortfolioValue

  datatype Report = Report(
    symbols: seq<string>,
    estimates: seq<Estimator.Estimate>,
    allocations: seq<real>,
    plan: Rebalancer.Plan)

  predicate AllPositiveCloses(histories: seq<seq<Estimator.Row>>)
  {
    forall k :: 0 <= k < |histories| ==> Estimator.PositiveCloses(histories[k])
  }

  /**
   Estimate every series in symbol order. On success there is one estimate
   per series; on failure the index names the first series that failed,
   and every series before it succeeded.
   */
  function EstimateAll(histories: seq<seq<Estimator.Row>>, today: int)
    : (r: Result<seq<Estimator.Estimate>, Failure>)
    requires AllPositiveCloses(histories)
    ensures r.Ok? ==>
      && |r.value| == |histories|
      && forall k :: 0 <= k < |histories| ==>
           Estimator.EstimateSeries(histories[k], Estimator.WindowSize, today) == Ok(r.value[k])
    ensures r.Err? ==>
      && r.error.EstimateFailed?
      && r.error.index < |histories|
      && Estimator.EstimateSeries(histories[r.error.index], Estimator.WindowSize, today) == Err(r.error.reason)
      && forall k :: 0 <= k < r.error.index ==> Estimator.EstimateSeries(histories[k], Estimator.WindowSize, today).Ok?
  {
    if |histories| == 0 then Ok([])
    else
      var n := |histories| - 1;
      match EstimateAll(histories[..n], today)
      case Err(e) => Err(e)
      case Ok(estimates) =>
        match Estimator.EstimateSeries(histories[n], Estimator.WindowSize, today)
        case Err(e) => Err(EstimateFailed(n, e))
        case Ok(estimate) => Ok(estimates + [estimate])
  }

  /** The latest close of every estimate. */
  function LatestPrices(estimates: seq<Estimator.Estimate>): (prices: seq<real>)
    ensures |prices| == |estimates|
  {
    seq(|estimates|, k requires 0 <= k < |estimates| => estimates[k].price)
  }

  /** A successful estimate's latest price is the positive close of the series' last row. */
  lemma LatestPricesPositive(histories: seq<seq<Estimator.Row>>, today: int)
    requires AllPositiveCloses(histories)
    ensures match EstimateAll(histories, today)
      case Ok(estimates) => forall k :: 0 <= k < |estimates| ==> LatestPrices(estimates)[k] > 0.0
      case Err(_) => true
  {
  }

  /** The whole run, from the command-line arguments to the rebalance plan. */
  function Run(args: seq<string>, histories: seq<seq<Estimator.Row>>, vols: seq<real>, today: int,
               shares: seq<real>, cash: real, keep: real): (r: Result<Report, Failure>)
    requires |histories| == |vols| == |shares| == |Symbols.ParseSymbols(args)|
    requires AllPositiveCloses(histories)
    requires Allocator.AllPositive(vols)
    ensures r.Ok? <==>
      && EstimateAll(histories, today).Ok?
      && cash + Dot(shares, LatestPrices(EstimateAll(histories, today).value)) != 0.0
    ensures r.Err? && r.error.EstimateFailed? ==> EstimateAll(histories, today) == Err(r.error)
    ensures r.Ok? ==>
      && EstimateAll(histories, today) == Ok(r.value.estimates)
      && r.value.allocations == Allocator.Allocations(vols)
      && Rebalancer.RebalancePlan(r.value.allocations, LatestPrices(r.value.estimates), shares, cash, keep)
         == Ok(r.value.plan)
      && r.value.symbols == Symbols.ParseSymbols(args)
      && |r.value.estimates| == |r.value.allocations| == |r.value.plan.targets| == |histories|
      && Sum(r.value.allocations) == 1.0
      && r.value.plan.remainingCash + Dot(AsReals(r.value.plan.targets), LatestPrices(r.value.estimates))
         == cash + Dot(shares, LatestPrices(r.value.estimates))
  {
    var symbols := Symbols.ParseSymbols(args);
    match EstimateAll(histories, today)
    case Err(failure) => Err(failure)
    case Ok(estimates) =>
      LatestPricesPositive(histories, today);
      var prices := LatestPrices(estimates);
      var allocations := Allocator.Allocations(vols);
      Allocator.AllocationsSumToOne(vols);
      Rebalancer.ValueConserved(allocations, prices, shares, cash, keep);
      match Rebalancer.RebalancePlan(allocations, prices, shares, cash, keep)
      case Err(_) => Err(ZeroPortfolioValue)
      case Ok(plan) => Ok(Report(symbols, estimates, allocations, plan))
  }

  /**
   Volatilities 40% and 20%, prices 10 and 20, no holdings, cash 1000 and
   no reserve: weights one third and two thirds, 33 shares of each, and 10
   left in cash.
   */
  lemma TwoInstrumentScenario()
    ensures Rebalancer.RebalancePlan(Allocator.Allocations([0.40, 0.20]), [10.0, 20.0], [0.0, 0.0], 1000.0, 0.0)
         == Ok(Rebalancer.Plan(1000.0, [33, 33], [33.0, 33.0], [33.0, 66.0], 10.0))
  {
    Allocator.TwoInstrumentExample();
    Rebalancer.WorkedExample();
  }
}
