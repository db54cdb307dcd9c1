/**
 The rebalancer: from target weights, latest prices, current holdings,
 cash on hand and a minimum cash reserve, it derives whole-share targets,
 the signed share changes that reach them, the cash left afterwards and
 each instrument's share of the total value.

 Current holdings are real (the script parses them with `float`); targets
 are whole shares, produced by Python's `int`, which truncates toward zero.
 */
module Rebalancer {
  import opened Sums
  import opened Results

  /** `t` is `x` truncated toward zero, as Python's `int(x)` does for a float. */
  ghost predicate IsTruncation(x: real, t: int)
  {
    && (0.0 <= x ==> 0 <= t && t as real <= x < t as real + 1.0)
    && (x < 0.0 ==> t <= 0 && x <= t as real < x + 1.0)
  }

  /** Truncation toward zero. */
  function Trunc(x: real): (t: int)
    ensures IsTruncation(x, t)
  {
    if x >= 0.0 then x.Floor else -((-x).Floor)
  }

  /** Truncation is the only integer within the stated bounds. */
  lemma TruncUnique(x: real, t: int)
    requires IsTruncation(x, t)
    ensures t == Trunc(x)
  {
  }

  /** Truncation and floor disagree on negative non-integers: int(-2.5) is -2, not -3. */
  lemma TruncIsNotFloor()
    ensures Trunc(-2.5) == -2 && (-2.5).Floor == -3
  {
  }

  /** The inputs the rebalancer works on: one weight, price and holding per instrument. */
  predicate WellFormed(allocs: seq<real>, prices: seq<real>, shares: seq<real>)
  {
    && |allocs| == |prices| == |shares|
    && forall i :: 0 <= i < |prices| ==> prices[i] > 0.0
  }

  /** Cash plus the market value of every holding. */
  function PortfolioValue(cash: real, shares: seq<real>, prices: seq<real>): real
    requires |shares| == |prices|
  {
    cash + Dot(shares, prices)
  }

  /** The fractional number of shares an amount buys of one instrument at a given weight and price. */
  function IdealShare(investable: real, alloc: real, price: real): real
    requires price > 0.0
  {
    investable * alloc / price
  }

  /** Whole-share targets: each fractional amount truncated toward zero. */
  function TargetShares(investable: real, allocs: seq<real>, prices: seq<real>): (t: seq<int>)
    requires |allocs| == |prices|
    requires forall i :: 0 <= i < |prices| ==> prices[i] > 0.0
    ensures |t| == |allocs|
    ensures forall i :: 0 <= i < |t| ==> IsTruncation(IdealShare(investable, allocs[i], prices[i]), t[i])
  {
    seq(|allocs|, i requires 0 <= i < |allocs| => Trunc(IdealShare(investable, allocs[i], prices[i])))
  }

  /** Signed share changes: positive buys, negative sells. */
  function ShareChanges(targets: seq<int>, shares: seq<real>): (d: seq<real>)
    requires |targets| == |shares|
    ensures |d| == |targets|
    ensures forall i :: 0 <= i < |d| ==> shares[i] + d[i] == targets[i] as real
  {
    Diff(AsReals(targets), shares)
  }

  /** A target's value as a percentage of the total value, reserve included. */
  function Percent(target: int, price: real, value: real): real
    requires value != 0.0
  {
    target as real * price * 100.0 / value
  }

  /** Every target's percentage of the total value. */
  function TargetPercents(targets: seq<int>, prices: seq<real>, value: real): (p: seq<real>)
    requires |targets| == |prices|
    requires value != 0.0 || |targets| == 0
    ensures |p| == |targets|
  {
    seq(|targets|, i requires 0 <= i < |targets| => Percent(targets[i], prices[i], value))
  }

  datatype RebalanceError = ZeroPortfolioValue

  datatype Plan = Plan(
    portfolioValue: real,
    targets: seq<int>,
    changes: seq<real>,
    percents: seq<real>,
    remainingCash: real)

  /**
   The whole rebalance as one pure function. The percentage of the first
   instrument divides by the total value, so the rebalance fails exactly
   when there is an instrument and the total value is zero. Otherwise every
   target is the truncated number of shares its weight of the investable
   value (total value less the reserve) buys, and every change takes the
   holding to its target.
   */
  function RebalancePlan(allocs: seq<real>, prices: seq<real>, shares: seq<real>, cash: real, keep: real)
    : (r: Result<Plan, RebalanceError>)
    requires WellFormed(allocs, prices, shares)
    ensures r.Err? <==> |allocs| > 0 && cash + Dot(shares, prices) == 0.0
    ensures r.Ok? ==>
      && r.value.portfolioValue == cash + Dot(shares, prices)
      && |r.value.targets| == |r.value.changes| == |r.value.percents| == |allocs|
      && forall i :: 0 <= i < |allocs| ==>
           && IsTruncation(IdealShare(r.value.portfolioValue - keep, allocs[i], prices[i]), r.value.targets[i])
           && shares[i] + r.value.changes[i] == r.value.targets[i] as real
  {
    var value := PortfolioValue(cash, shares, prices);
    if value == 0.0 && |allocs| > 0 then Err(ZeroPortfolioValue)
    else
      var targets := TargetShares(value - keep, allocs, prices);
      var changes := ShareChanges(targets, shares);
      Ok(Plan(value, targets, changes, TargetPercents(targets, prices, value), cash - Dot(changes, prices)))
  }

  /** Value is conserved exactly: remaining cash plus the targets' value is the value before trading. */
  lemma {:induction false} ValueConserved(allocs: seq<real>, prices: seq<real>, shares: seq<real>, cash: real, keep: real)
    requires WellFormed(allocs, prices, shares)
    ensures match RebalancePlan(allocs, prices, shares, cash, keep)
      case Ok(plan) =>
        && plan.portfolioValue == cash + Dot(shares, prices)
        && plan.remainingCash + Dot(AsReals(plan.targets), prices) == plan.portfolioValue
      case Err(_) => true
  {
    var value := PortfolioValue(cash, shares, prices);
    if !(value == 0.0 && |allocs| > 0) {
      var targets := TargetShares(value - keep, allocs, prices);
      DotDiff(AsReals(targets), shares, prices);
    }
  }

  /**
   One instrument at a positive price with a nonnegative weight, given the
   investable value `k`: `budget` is its share `a·k` of that value and
   `spent` the cost of its truncated target. When `k >= 0` the target costs
   at most the budget and less than one share below it; when `k < 0` the
   target is zero or negative and costs between the budget and zero.
   */
  lemma InstrumentSpend(k: real, a: real, p: real, budget: real, spent: real)
    requires p > 0.0 && a >= 0.0
    requires budget == a * k
    requires spent == Trunc(IdealShare(k, a, p)) as real * p
    ensures k >= 0.0 ==> spent <= budget && budget - p < spent
    ensures k < 0.0 ==> Trunc(IdealShare(k, a, p)) <= 0 && budget <= spent <= 0.0
  {
    var x := IdealShare(k, a, p);
    var t := Trunc(x) as real;
    assert x * p == budget;
    if k >= 0.0 {
      assert k * a >= 0.0;
      assert x >= 0.0;
      var below := x - t;
      assert below >= 0.0 && below * p >= 0.0;
      assert below * p == budget - spent;
      var above := t + 1.0 - x;
      assert above > 0.0 && above * p > 0.0;
      assert above * p == spent + p - budget;
    } else {
      assert k * a <= 0.0;
      assert x <= 0.0;
      var over := t - x;
      assert over >= 0.0 && over * p >= 0.0;
      assert over * p == spent - budget;
      assert -t >= 0.0 && -t * p >= 0.0;
    }
  }

  /** The cost of every target, `target_i · price_i`. */
  function TargetCosts(investable: real, allocs: seq<real>, prices: seq<real>): (c: seq<real>)
    requires |allocs| == |prices|
    requires forall i :: 0 <= i < |prices| ==> prices[i] > 0.0
    ensures |c| == |allocs|
  {
    Products(AsReals(TargetShares(investable, allocs, prices)), prices)
  }

  /**
   Every target against its budget `alloc_i · investable`: for a nonnegative
   investable value, within one share price below it; for a negative one,
   between the budget and zero.
   */
  lemma TargetCostsPointwise(investable: real, allocs: seq<real>, prices: seq<real>)
    requires |allocs| == |prices|
    requires forall i :: 0 <= i < |prices| ==> prices[i] > 0.0
    requires forall i :: 0 <= i < |allocs| ==> allocs[i] >= 0.0
    ensures investable >= 0.0 ==> forall i :: 0 <= i < |allocs| ==>
      && TargetCosts(investable, allocs, prices)[i] <= Scale(allocs, investable)[i]
      && Diff(Scale(allocs, investable), prices)[i] < TargetCosts(investable, allocs, prices)[i]
    ensures investable < 0.0 ==> forall i :: 0 <= i < |allocs| ==>
      && TargetShares(investable, allocs, prices)[i] <= 0
      && Scale(allocs, investable)[i] <= TargetCosts(investable, allocs, prices)[i]
      && TargetCosts(investable, allocs, prices)[i] <= Scale(allocs, 0.0)[i]
  {
    var t := TargetShares(investable, allocs, prices);
    var costs := TargetCosts(investable, allocs, prices);
    var budget := Scale(allocs, investable);
    forall i | 0 <= i < |allocs|
      ensures investable >= 0.0 ==> costs[i] <= budget[i] && budget[i] - prices[i] < costs[i]
      ensures investable < 0.0 ==> t[i] <= 0 && budget[i] <= costs[i] <= 0.0
    {
      InstrumentSpend(investable, allocs[i], prices[i], budget[i], costs[i]);
    }
  }

  /**
   With weights summing to one and a nonnegative investable value, the
   targets' total cost is at most the investable value and falls short of
   it by less than the sum of the prices.
   */
  lemma {:induction false} TargetCostBounds(investable: real, allocs: seq<real>, prices: seq<real>)
    requires |allocs| == |prices| > 0
    requires forall i :: 0 <= i < |prices| ==> prices[i] > 0.0
    requires forall i :: 0 <= i < |allocs| ==> allocs[i] >= 0.0
    requires Sum(allocs) == 1.0
    requires investable >= 0.0
    ensures investable - Sum(prices) < Dot(AsReals(TargetShares(investable, allocs, prices)), prices) <= investable
  {
    var costs := TargetCosts(investable, allocs, prices);
    var budget := Scale(allocs, investable);
    TargetCostsPointwise(investable, allocs, prices);
    SumLe(costs, budget);
    SumLt(Diff(budget, prices), costs);
    SumScale(allocs, investable);
    SumDiff(budget, prices);
  }

  /**
   With weights summing to one and a negative investable value, every
   target is zero or negative and their total cost lies between the
   investable value and zero.
   */
  lemma {:induction false} NegativeTargetCostBounds(investable: real, allocs: seq<real>, prices: seq<real>)
    requires |allocs| == |prices|
    requires forall i :: 0 <= i < |prices| ==> prices[i] > 0.0
    requires forall i :: 0 <= i < |allocs| ==> allocs[i] >= 0.0
    requires Sum(allocs) == 1.0
    requires investable < 0.0
    ensures forall i :: 0 <= i < |allocs| ==> TargetShares(investable, allocs, prices)[i] <= 0
    ensures investable <= Dot(AsReals(TargetShares(investable, allocs, prices)), prices) <= 0.0
  {
    var costs := TargetCosts(investable, allocs, prices);
    TargetCostsPointwise(investable, allocs, prices);
    SumLe(costs, Scale(allocs, 0.0));
    SumLe(Scale(allocs, investable), costs);
    SumScale(allocs, investable);
    SumScale(allocs, 0.0);
  }

  /**
   No overspend: with nonnegative weights summing to one and a total value
   that covers the reserve, the remaining cash is at least the reserve and
   exceeds it by less than one share of every instrument.
   */
  lemma NoOverspend(allocs: seq<real>, prices: seq<real>, shares: seq<real>, cash: real, keep: real)
    requires WellFormed(allocs, prices, shares)
    requires |allocs| > 0
    requires forall i :: 0 <= i < |allocs| ==> allocs[i] >= 0.0
    requires Sum(allocs) == 1.0
    requires cash + Dot(shares, prices) >= keep
    ensures match RebalancePlan(allocs, prices, shares, cash, keep)
      case Ok(plan) => keep <= plan.remainingCash < keep + Sum(prices)
      case Err(_) => true
  {
    var value := PortfolioValue(cash, shares, prices);
    var r := RebalancePlan(allocs, prices, shares, cash, keep);
    if r.Ok? {
      var spent := Dot(AsReals(r.value.targets), prices);
      ValueConserved(allocs, prices, shares, cash, keep);
      assert r.value.remainingCash == value - spent;
      assert r.value.targets == TargetShares(value - keep, allocs, prices);
      TargetCostBounds(value - keep, allocs, prices);
      assert value - keep - Sum(prices) < spent <= value - keep;
    }
  }

  /**
   The script does not clamp: when the reserve exceeds the total value,
   every target is zero or negative (a sale, or a short position), and the
   remaining cash lies between the total value and the reserve.
   */
  lemma NegativeInvestableValue(allocs: seq<real>, prices: seq<real>, shares: seq<real>, cash: real, keep: real)
    requires WellFormed(allocs, prices, shares)
    requires forall i :: 0 <= i < |allocs| ==> allocs[i] >= 0.0
    requires Sum(allocs) == 1.0
    requires cash + Dot(shares, prices) < keep
    ensures match RebalancePlan(allocs, prices, shares, cash, keep)
      case Ok(plan) =>
        && (forall i :: 0 <= i < |plan.targets| ==> plan.targets[i] <= 0)
        && plan.portfolioValue <= plan.remainingCash <= keep
      case Err(_) => true
  {
    ValueConserved(allocs, prices, shares, cash, keep);
    NegativeTargetCostBounds(PortfolioValue(cash, shares, prices) - keep, allocs, prices);
  }

  /** The percentages of a list of targets add up to their total cost as a percentage of `value`. */
  lemma {:induction false} PercentsOfCost(targets: seq<int>, prices: seq<real>, value: real)
    requires |targets| == |prices|
    requires value != 0.0
    ensures Sum(TargetPercents(targets, prices, value)) == Dot(AsReals(targets), prices) * 100.0 / value
  {
    var tp := Products(AsReals(targets), prices);
    var c := 100.0 / value;
    var pct := TargetPercents(targets, prices, value);
    forall i | 0 <= i < |targets|
      ensures pct[i] == Scale(tp, c)[i]
    {
      PercentOfValue(targets[i], prices[i], value);
    }
    assert pct == Scale(tp, c);
    SumScale(tp, c);
    ScaledPercent(Dot(AsReals(targets), prices), value, Sum(pct));
  }

  /** A target's percentage is its cost `t·p` scaled by `100/v`. */
  lemma PercentOfValue(t: int, p: real, v: real)
    requires v != 0.0
    ensures Percent(t, p, v) == (t as real * p) * (100.0 / v)
  {
  }

  /** A cost scaled by `100/v` is that cost as a percentage of `v`. */
  lemma ScaledPercent(cost: real, v: real, scaled: real)
    requires v != 0.0
    requires scaled == cost * (100.0 / v)
    ensures scaled == cost * 100.0 / v
  {
  }

  /**
   The reported percentages add up to the share of the total value held in
   instruments after trading.
   */
  lemma PercentsSumToInvestedShare(allocs: seq<real>, prices: seq<real>, shares: seq<real>, cash: real, keep: real)
    requires WellFormed(allocs, prices, shares)
    ensures match RebalancePlan(allocs, prices, shares, cash, keep)
      case Ok(plan) =>
        |allocs| > 0 ==>
          Sum(plan.percents) == (plan.portfolioValue - plan.remainingCash) * 100.0 / plan.portfolioValue
      case Err(_) => true
  {
    var r := RebalancePlan(allocs, prices, shares, cash, keep);
    if r.Ok? && |allocs| > 0 {
      var plan := r.value;
      ValueConserved(allocs, prices, shares, cash, keep);
      PercentsOfCost(plan.targets, prices, plan.portfolioValue);
      assert Dot(AsReals(plan.targets), prices) == plan.portfolioValue - plan.remainingCash;
    }
  }

  /** A reserve above the total value yields a negative target, i.e. a short sale. */
  lemma NegativeTargetExample()
    ensures RebalancePlan([1.0], [10.0], [0.0], 100.0, 1000.0)
         == Ok(Plan(100.0, [-90], [-90.0], [-900.0], 1000.0))
  {
    assert Products([0.0], [10.0]) == [0.0];
    assert Sum([0.0]) == 0.0 by { assert [0.0][..0] == []; }
    assert IdealShare(-900.0, 1.0, 10.0) == -90.0;
    assert Trunc(-90.0) == -90;
    assert TargetShares(-900.0, [1.0], [10.0]) == [-90];
    assert AsReals([-90]) == [-90.0];
    assert ShareChanges([-90], [0.0]) == [-90.0];
    assert Products([-90.0], [10.0]) == [-900.0];
    assert Sum([-900.0]) == -900.0 by { assert [-900.0][..0] == []; }
    assert TargetPercents([-90], [10.0], 100.0) == [-900.0];
  }

  /**
   Weights one third and two thirds, prices 10 and 20, no holdings, cash
   1000 and no reserve: buy 33 shares of each and keep 10 in cash.
   */
  lemma WorkedExample()
    ensures RebalancePlan([1.0 / 3.0, 2.0 / 3.0], [10.0, 20.0], [0.0, 0.0], 1000.0, 0.0)
         == Ok(Plan(1000.0, [33, 33], [33.0, 33.0], [33.0, 66.0], 10.0))
  {
    var allocs := [1.0 / 3.0, 2.0 / 3.0];
    var prices := [10.0, 20.0];
    assert Products([0.0, 0.0], prices) == [0.0, 0.0];
    assert Sum([0.0, 0.0]) == 0.0 by { assert [0.0, 0.0][..1] == [0.0]; assert [0.0][..0] == []; }
    assert IdealShare(1000.0, 1.0 / 3.0, 10.0) == 100.0 / 3.0;
    assert IdealShare(1000.0, 2.0 / 3.0, 20.0) == 100.0 / 3.0;
    assert Trunc(100.0 / 3.0) == 33;
    assert TargetShares(1000.0, allocs, prices) == [33, 33];
    assert AsReals([33, 33]) == [33.0, 33.0];
    assert ShareChanges([33, 33], [0.0, 0.0]) == [33.0, 33.0];
    assert Products([33.0, 33.0], prices) == [330.0, 660.0];
    assert Sum([330.0, 660.0]) == 990.0 by { assert [330.0, 660.0][..1] == [330.0]; assert [330.0][..0] == []; }
    assert TargetPercents([33, 33], prices, 1000.0) == [33.0, 66.0];
  }

  /** The script's first loop: cash plus each holding's value, added in symbol order. */
  method TotalValue(cash: real, shares: seq<real>, prices: seq<real>) returns (value: real)
    requires |shares| == |prices|
    ensures value == cash + Dot(shares, prices)
  {
    value := cash;
    var i := 0;
    while i < |shares|
      invariant 0 <= i <= |shares|
      invariant value == cash + Dot(shares[..i], prices[..i])
    {
      DotStep(shares, prices, i);
      value := value + shares[i] * prices[i];
      i := i + 1;
    }
    assert shares[..i] == shares && prices[..i] == prices;
  }

  /** The script's second loop: each whole-share target and the change that reaches it. */
  method TargetsAndChanges(investable: real, allocs: seq<real>, prices: seq<real>, shares: seq<real>)
    returns (targets: seq<int>, changes: seq<real>)
    requires WellFormed(allocs, prices, shares)
    ensures |targets| == |changes| == |allocs|
    ensures forall i :: 0 <= i < |targets| ==> IsTruncation(IdealShare(investable, allocs[i], prices[i]), targets[i])
    ensures forall i :: 0 <= i < |changes| ==> shares[i] + changes[i] == targets[i] as real
    ensures targets == TargetShares(investable, allocs, prices)
    ensures changes == ShareChanges(targets, shares)
  {
    targets, changes := [], [];
    var i := 0;
    while i < |allocs|
      invariant 0 <= i <= |allocs|
      invariant targets == TargetShares(investable, allocs, prices)[..i]
      invariant changes == ShareChanges(TargetShares(investable, allocs, prices), shares)[..i]
    {
      var target := Trunc(IdealShare(investable, allocs[i], prices[i]));
      targets := targets + [target];
      changes := changes + [target as real - shares[i]];
      i := i + 1;
    }
  }

  /** Reporting one more instrument appends its percentage. */
  lemma PercentsStep(targets: seq<int>, prices: seq<real>, value: real, i: int)
    requires |targets| == |prices|
    requires 0 <= i < |targets|
    requires value != 0.0
    ensures TargetPercents(targets[..i + 1], prices[..i + 1], value)
         == TargetPercents(targets[..i], prices[..i], value) + [Percent(targets[i], prices[i], value)]
  {
  }

  /**
   The script's last loop: pay for each change and report each target's
   percentage of the total value, which fails on a zero total value.
   */
  method SettleCash(cash: real, value: real, targets: seq<int>, changes: seq<real>, prices: seq<real>)
    returns (r: Result<(seq<real>, real), RebalanceError>)
    requires |targets| == |changes| == |prices|
    ensures r.Err? <==> value == 0.0 && |targets| > 0
    ensures r.Ok? ==> r.value.1 == cash - Dot(changes, prices)
    ensures r.Ok? ==> r.value.0 == TargetPercents(targets, prices, value)
  {
    var remaining := cash;
    var percents: seq<real> := [];
    var i := 0;
    while i < |targets|
      invariant 0 <= i <= |targets|
      invariant remaining == cash - Dot(changes[..i], prices[..i])
      invariant i > 0 ==> value != 0.0
      invariant percents == TargetPercents(targets[..i], prices[..i], value)
    {
      DotStep(changes, prices, i);
      remaining := remaining - changes[i] * prices[i];
      if value == 0.0 {
        return Err(ZeroPortfolioValue);
      }
      PercentsStep(targets, prices, value, i);
      percents := percents + [Percent(targets[i], prices[i], value)];
      i := i + 1;
    }
    assert changes[..i] == changes && prices[..i] == prices && targets[..i] == targets;
    r := Ok((percents, remaining));
  }

  /**
   The rebalance as the script runs it, loop by loop. It agrees with
   `RebalancePlan` and conserves value.
   */
  method Rebalance(allocs: seq<real>, prices: seq<real>, shares: seq<real>, cash: real, keep: real)
    returns (r: Result<Plan, RebalanceError>)
    requires WellFormed(allocs, prices, shares)
    ensures r == RebalancePlan(allocs, prices, shares, cash, keep)
    ensures r.Ok? ==> r.value.remainingCash + Dot(AsReals(r.value.targets), prices) == cash + Dot(shares, prices)
  {
    var value := TotalValue(cash, shares, prices);
    var targets, changes := TargetsAndChanges(value - keep, allocs, prices, shares);
    var settled := SettleCash(cash, value, targets, changes, prices);
    match settled
    case Err(_) =>
      r := Err(ZeroPortfolioValue);
    case Ok((percents, remaining)) =>
      r := Ok(Plan(value, targets, changes, percents, remaining));
      ValueConserved(allocs, prices, shares, cash, keep);
  }
}
