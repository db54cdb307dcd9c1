# Inverse-volatility allocation and rebalancing, in Dafny

This project models the arithmetic core of `inverse_volatility.py`, a script
that builds a risk-parity-style portfolio. The script does four things:

1. It reads a comma-separated symbol list from the command line. The default is `UPRO,TMF`.
2. For each symbol it takes a window of daily closes. From them it estimates an
   annualised volatility, the simple return over the window ("performance") and
   the latest close. It rejects data older than four days.
3. It weights each symbol by its inverse volatility.
4. It turns those weights, the current holdings, the cash and a minimum cash
   reserve into whole-share targets, signed share changes, the remaining cash,
   and each target's percentage of the total value.

All arithmetic uses Dafny's exact `real`. Python's `int()` on a float is modelled
as truncation toward zero (`Rebalancer.Trunc`). Volatilities, today's date (as an
integer day number), the price histories and the holdings are inputs.

Modules:

- `Results`: the `Result` type used for the script's error exits.
- `Sums`: left-to-right sums and dot products, with linearity and monotonicity lemmas.
- `Symbols`: argument parsing. Covers `split(',')`, `strip()` and `upper()` over ASCII.
- `Estimator`: reversal of the closes, the window ratios, performance, latest price and the staleness rule.
- `Allocator`: inverse-volatility weights.
- `Rebalancer`: portfolio value, truncated targets, share changes, cash update and percentages.
  It has both a pure definition (`RebalancePlan`) and a loop-by-loop method (`Rebalance`) proved equal to it.
- `Pipeline`: the whole run, where the first failing symbol aborts.

Error exits of the script, and how the model represents them:

- An `IndexError` from fewer than `window + 1` closes becomes `InsufficientHistory`.
- The staleness `assert` becomes `StaleData`. The window is indexed first, so short history is reported before staleness.
- A `ZeroDivisionError` from a zero total value becomes `ZeroPortfolioValue`.
  It is raised by the percentage at line 90 as soon as there is at least one symbol.

The model follows the code on these points, which are easy to misread:

- Target shares are truncated toward zero, not floored. `int(-2.5)` is `-2` (`Rebalancer.TruncIsNotFloor`).
- Negative targets are not clamped. When the reserve exceeds the total value, targets go to zero or below.
- Value is conserved exactly, not merely up to rounding.
- The reported percentage divides by the total value, reserve included.

## Model

| member | source | states |
|---|---|---|
| Symbols.ParseSymbols | inverse_volatility.py:12-17 | With no argument the list is exactly `["UPRO","TMF"]`. Otherwise it has one symbol per comma-separated field of the first argument (commas + 1), each the normalised field in order. Every symbol is normalised. |
| Symbols.ParseSymbolsStable | inverse_volatility.py:12-17 | Normalising any parsed symbol again leaves it unchanged. |
| Symbols.Split | inverse_volatility.py:15 | `split(',')` always yields at least one field (the empty string gives one empty field), and no field contains a comma. |
| Symbols.SplitCount | inverse_volatility.py:15 | `split(',')` yields exactly one more field than there are commas. |
| Symbols.JoinSplit | inverse_volatility.py:15 | Joining the split fields with commas reconstructs the argument. |
| Symbols.SplitJoin | inverse_volatility.py:15 | Splitting comma-free fields joined by commas returns those same fields. |
| Symbols.SplitNoComma | inverse_volatility.py:15 | A string without commas splits into itself alone. |
| Symbols.SplitFirstField | inverse_volatility.py:15 | A comma-free prefix before a comma becomes the first field, followed by the fields of the rest. |
| Symbols.SkipSpace | inverse_volatility.py:17 | Scanning forward from an index stops at the first non-whitespace character, or at the end. Everything skipped is whitespace. |
| Symbols.SkipSpaceBack | inverse_volatility.py:17 | Scanning backward stops just after the last non-whitespace character, never before the lower bound. Everything skipped is whitespace. |
| Symbols.Strip | inverse_volatility.py:17 | The stripped field neither starts nor ends with whitespace, and is no longer than the field. |
| Symbols.StripRemovesOnlySpace | inverse_volatility.py:17 | The original field is the stripped field surrounded by whitespace only. |
| Symbols.StripUnique | inverse_volatility.py:17 | Stripping is fully determined: for any field written as whitespace, then a string without edge whitespace, then whitespace, the result is that middle string. |
| Symbols.StripIdentity | inverse_volatility.py:17 | Stripping a field without edge whitespace changes nothing. |
| Symbols.ToUpper | inverse_volatility.py:17 | Upper-casing one character turns a lower-case letter `a`-`z` into the capital at the same alphabet position and keeps every other character. The result is never lower-case and is whitespace iff the input is. |
| Symbols.Upper | inverse_volatility.py:17 | Upper-casing keeps the length. At each position a lower-case letter becomes its own capital and every other character is kept. No lower-case letter remains. |
| Symbols.UpperIdentity | inverse_volatility.py:17 | Upper-casing a string with no lower-case letters changes nothing. |
| Symbols.NormaliseField | inverse_volatility.py:17 | `strip().upper()` yields a normalised symbol (no edge whitespace, no lower case). It has the stripped field's length, with each lower-case letter of the stripped field replaced by its capital and every other character kept. |
| Symbols.NormaliseFixesNormalised | inverse_volatility.py:17 | An already normalised symbol is left unchanged. |
| Symbols.NormaliseIdempotent | inverse_volatility.py:17 | Normalising twice is the same as normalising once. |
| Estimator.Reverse | inverse_volatility.py:34 | After reversal, position i holds the close that was at position n-1-i. |
| Estimator.ReverseInvolutive | inverse_volatility.py:34 | Reversing twice restores the original order. |
| Estimator.WindowRatios | inverse_volatility.py:37-38 | The window loop produces exactly `window` ratio terms. |
| Estimator.RatiosTelescope | inverse_volatility.py:37-38 | The product of the adjacent-close ratios is `prices[0]/prices[window]`. So the log-returns add up to the log of the window's return plus one. |
| Estimator.EstimateSeries | inverse_volatility.py:34-43 | Too few rows (at most `window`) fail as insufficient history. With enough rows, a last row more than 4 days before today fails as stale. Otherwise the result is accepted, and acceptance holds exactly in that case. The price is the last row's close. The `window` ratios are the adjacent closes from the most recent back. Performance is the last close over the close `window` rows earlier, minus one. |
| Estimator.PerformanceIsProductOfRatios | inverse_volatility.py:37-43 | For an accepted series, performance plus one equals the product of the window ratios, and performance exceeds -1. |
| Estimator.FutureDateAccepted | inverse_volatility.py:40-41 | A last row dated after today passes the staleness check. |
| Allocator.SumInverseVolatility | inverse_volatility.py:48-51 | The accumulated sum of inverse volatilities is positive whenever there is at least one symbol. |
| Allocator.Allocations | inverse_volatility.py:57-60 | One weight per symbol, every weight positive. Weight times volatility is the same for every symbol, i.e. equal risk contribution. |
| Allocator.AllocationIsNormalisedInverse | inverse_volatility.py:59 | The script's `1/(v_i*S)` equals the textbook weight `(1/v_i) / Σ_j (1/v_j)`. |
| Allocator.AllocationsSumToOne | inverse_volatility.py:48-60 | For a nonempty list of positive volatilities the weights sum to exactly 1. |
| Allocator.LowerVolatilityHigherWeight | inverse_volatility.py:59 | A symbol has a strictly lower volatility than another iff it has a strictly higher weight. |
| Allocator.EqualVolatilityEqualWeight | inverse_volatility.py:59 | Two symbols have equal volatilities iff they have equal weights. |
| Allocator.TwoInstrumentExample | inverse_volatility.py:57-60 | Volatilities 0.40 and 0.20 give weights 1/3 and 2/3. |
| Rebalancer.Trunc | inverse_volatility.py:84 | `int(x)` truncates toward zero. For `x >= 0`: `0 <= t <= x < t+1`. For `x < 0`: `x <= t <= 0` and `t < x+1`. |
| Rebalancer.TruncUnique | inverse_volatility.py:84 | Those bounds determine the truncation uniquely. |
| Rebalancer.TruncIsNotFloor | inverse_volatility.py:83-84 | Despite the "round down" comment, `int(-2.5)` is -2 while the floor is -3. |
| Rebalancer.TargetShares | inverse_volatility.py:82-85 | Each target is the truncation toward zero of `(value - keep) * alloc_i / price_i`. |
| Rebalancer.ShareChanges | inverse_volatility.py:86 | Current holding plus change equals the target. |
| Rebalancer.InstrumentSpend | inverse_volatility.py:84 | For one symbol with investable value k >= 0, the target costs at most its budget `alloc*k` and less than one share below it. For k < 0, the target is zero or negative and costs between the budget and zero. |
| Rebalancer.TargetCostBounds | inverse_volatility.py:82-85 | With weights summing to 1 and nonnegative investable value, the total cost of the targets lies in `(investable - Σ price_i, investable]`. |
| Rebalancer.NegativeTargetCostBounds | inverse_volatility.py:82-85 | With negative investable value, every target is at most 0 and their total cost lies in `[investable, 0]`. |
| Rebalancer.RebalancePlan | inverse_volatility.py:74-90 | The rebalance fails iff there is at least one symbol and the total value `cash + Σ shares·price` is zero (the percentage division at line 90). Otherwise the plan records that total value, and one target, change and percentage per symbol. Each target is `(value - keep)·alloc/price` truncated toward zero, and holding plus change equals the target. |
| Rebalancer.ValueConserved | inverse_volatility.py:74-89 | Remaining cash plus `Σ target_i*price_i` equals the value before trading, `cash + Σ shares_i*price_i`, exactly. |
| Rebalancer.NoOverspend | inverse_volatility.py:74-89 | With nonnegative weights summing to 1 and value >= reserve, `keep <= remaining cash < keep + Σ price_i`. |
| Rebalancer.NegativeInvestableValue | inverse_volatility.py:83-89 | With value < reserve there is no clamping. Every target is at most 0, and `value <= remaining cash <= keep`. |
| Rebalancer.NegativeTargetExample | inverse_volatility.py:84-90 | Value 100 with reserve 1000 at price 10 gives target -90, change -90, remaining cash 1000 and percentage -900. |
| Rebalancer.PercentsOfCost | inverse_volatility.py:90 | The percentages add up to the targets' total cost as a percentage of the total value. |
| Rebalancer.PercentsSumToInvestedShare | inverse_volatility.py:90 | The reported percentages add up to `(value - remaining cash) * 100 / value`. |
| Rebalancer.WorkedExample | inverse_volatility.py:74-90 | Weights 1/3 and 2/3, prices 10 and 20, no holdings, cash 1000, reserve 0. Result: targets 33 and 33, changes +33 and +33, percentages 33 and 66, remaining cash 10. |
| Rebalancer.TotalValue | inverse_volatility.py:74-76 | The accumulation loop computes `cash + Σ shares_i*price_i`. |
| Rebalancer.TargetsAndChanges | inverse_volatility.py:80-86 | The target loop yields the truncated targets, and changes that take each holding to its target. |
| Rebalancer.SettleCash | inverse_volatility.py:88-90 | The cash loop fails iff the total value is zero and there is a symbol. Otherwise it yields `cash - Σ change_i*price_i` and every target's percentage. |
| Rebalancer.Rebalance | inverse_volatility.py:74-90 | The three loops together compute exactly the pure rebalance plan, and that plan conserves value. |
| Pipeline.EstimateAll | inverse_volatility.py:49-54 | On success, one estimate per symbol, each the accepted estimate of that symbol's series. On failure, the first failing symbol and its reason, with every earlier symbol accepted. |
| Pipeline.LatestPricesPositive | inverse_volatility.py:43 | Every latest price handed to the rebalancer is positive. |
| Pipeline.Run | inverse_volatility.py:12-90 | The run succeeds iff every series is accepted and the total value at the latest prices is nonzero. An estimate failure is the first failing symbol that the per-symbol estimation reports. A successful run has the parsed symbols, the accepted estimates, the inverse-volatility weights of the given volatilities, and the rebalance plan at the latest prices. Its weights sum to 1, and the plan conserves value at the latest prices. | |
| Pipeline.TwoInstrumentScenario | inverse_volatility.py:48-90 | Volatilities 0.40 and 0.20, prices 10 and 20, no holdings, cash 1000, reserve 0. Result: targets 33 and 33 and remaining cash 10. |

## Left out

- Fetching history over the network, and the URL with its cookie and crumb (lines 27-28): external I/O. Histories are an input, one `Row` sequence per symbol.
- The CSV header checks and `float()` parsing of column 4 (lines 29-33): these depend on the provider's text format and Python's float parser. Rows carry a day number and a real close.
- The model requires every close to be positive. The script reads only the `window + 1` most recent closes, and among them it fails only on a zero denominator or a zero or negative ratio (at the division or at `math.log`). Those error paths are not modelled.
- Log-returns, `np.std(ddof=1)` and the `sqrt(252)` annualisation (lines 38, 43): transcendental floating-point numerics. Each volatility is a positive real input.
  The estimator returns the ratios whose logarithms the script takes. The trading-days constant 252 is therefore not used.
- The wall clock (`time.time()`, `date.today()`) and the fetch span `1.4·(window+1)+4` days (lines 22-23, 41). Today is an integer day number, and the span only sizes the request.
- The interactive `input()` prompts and all printing, including the buy/sell/no-change wording and 2-decimal formatting (lines 56, 61, 68-72, 78, 91-98). Holdings, cash and reserve are inputs. The sign of each change in the plan is what decides the wording.
- IEEE-754 rounding: exact reals replace floats, so bit-level agreement with Python is out of scope.
- Zero volatility: the script divides by it unguarded (line 51). Volatilities are required to be positive instead of inventing an error path.
- Python's Unicode `str.strip` and `str.upper`: only ASCII whitespace and the letters `a`-`z` are modelled. Non-ASCII characters pass through unchanged.
