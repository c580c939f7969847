# Verified model of three technical-analysis indicators

This project models three indicators of the Quantitative-Trading-Indicators
repository. Each is a pure function from a sequence of OHLC bars to columns
of the same length, one cell per bar:

- the **engulfing-pattern detector** (`CandlestickEngulfing`): bullish and
  bearish signal columns, an optional Average True Range (ATR) filter, and
  the configuration its constructor stores;
- the **inside-bar detector** (`CandlestickInsideBar`): one boolean column;
- the **Average Directional Index** (`ADX`): True Range, ATR, filtered
  directional movement, DI+ and DI-, DX and its rolling mean.

A bar is a `Bar(open, high, low, close)` over `real`. A pandas float column
is a `Column = seq<Option<real>>`, with `None` standing for NaN. The `Num`
module defines the cell arithmetic, which propagates NaN, and comparisons
that are false when either side is NaN. The `Series` module defines the
column primitives that the indicators share:

- `shift(1)`;
- the row-wise `max(axis=1)`, which skips NaN;
- `rolling(window=w).mean()` with pandas' default `min_periods = w`;
- True Range and the ATR.

The three indicator modules follow the three source files.

Files: `num.dfy` (module `Num`), `series.dfy` (`Series`), `engulfing.dfy`
(`CandlestickEngulfing`), `inside_bar.dfy` (`CandlestickInsideBar`),
`adx.dfy` (`Adx`).

### Three places where the code differs from how the indicators are usually described

- **ADX tie on directional movement.** A common statement of the ADX rule
  has a tie make both `dm_plus` and `dm_minus` zero. In this code, line 38
  of indicators/trend/ADX.py compares `dm_minus` with the *already filtered*
  `dm_plus`. So on a positive tie `dm_plus` becomes 0 and `dm_minus` keeps
  its value. `Adx.MinusAt` and `Adx.TieKeepsDownwardMove` model and state
  the code's behaviour.
- **Warm-up length of ATR and DI.** It is often said that the first
  `period` rows of an ATR are NaN. `rolling(window=period)` gives NaN for
  the first `period - 1` rows only. Directional movement is 0, not NaN, on
  row 0, so DI is defined from row `period - 1` on wherever the ATR is
  non-zero. ADX is then undefined through row `2 * period - 3`.
- **What an engulfing bar must reach.** The class docstring
  (indicators/candlestick/CandlestickEngulfing.py:5-10) says the current
  candle engulfs the previous candle's *body*. The code compares the
  current open and close with the previous *high and low*. The model does
  what the code does. `BearishEngulfsPreviousBody` and
  `BullishEngulfsPreviousBody` show that for a well-formed previous bar
  this implies the docstring's property.

## Model

| member | source | states |
|---|---|---|
| `Series.Shift` | indicators/candlestick/CandlestickInsideBar.py:22-23 | `shift(1)` keeps the length, makes row 0 NaN and moves row `i-1` to row `i` |
| `Series.ShiftAt` | indicators/candlestick/CandlestickEngulfing.py:47-50 | row `i` of `shift(1)` is that row of `Shift`, and NaN on row 0 |
| `Series.Opens` | indicators/candlestick/CandlestickEngulfing.py:47 | `df['open']` has one cell per bar, with bar `k`'s open on row `k` |
| `Series.Highs` | indicators/trend/ADX.py:24 | `df['high']` has one cell per bar, with bar `k`'s high on row `k` |
| `Series.Lows` | indicators/trend/ADX.py:25 | `df['low']` has one cell per bar, with bar `k`'s low on row `k` |
| `Series.Closes` | indicators/trend/ADX.py:26 | `df['close']` has one cell per bar, with bar `k`'s close on row `k` |
| `Series.MaxSkipNa` | indicators/trend/ADX.py:31 | the row-wise max skipping NaN is NaN iff every cell is NaN; otherwise it is one of the cells and at least every defined cell |
| `Series.TrueRangeAt` | indicators/trend/ADX.py:28-31 | True Range is always defined and at least `high - low`; on row 0 it equals `high - low`; on later rows it is at least both `|high - prev close|` and `|low - prev close|` and equals one of the three terms |
| `Series.TrueRange` | indicators/trend/ADX.py:28-31 | the True Range column keeps the length and row `i` is the True Range of bar `i` and its predecessor |
| `Series.TrueRangeNonNegative` | indicators/trend/ADX.py:28-31 | with well-formed bars every True Range is at least 0 |
| `Series.RollingMean` | indicators/trend/ADX.py:32 | the rolling mean keeps the length; row `i` is defined iff `1 <= w <= i+1` and every cell of the trailing window is defined |
| `Series.MeanAt` | indicators/trend/ADX.py:32 | the trailing mean at row `i` is defined iff `1 <= w <= i+1` and every cell of its window is defined; a defined mean times `w` is the sum of the window |
| `Series.RollingMeanOfDefined` | indicators/trend/ADX.py:32 | over a column with no NaN, the rolling mean is defined exactly from row `w-1` on |
| `Series.MeanAtAtLeast` | indicators/trend/ADX.py:41-42 | a lower bound on every defined cell bounds the defined trailing mean at one row from below |
| `Series.MeanAtAtMost` | indicators/trend/ADX.py:46 | an upper bound on every defined cell bounds the defined trailing mean at one row from above |
| `Series.RollingMeanAtLeast` | indicators/trend/ADX.py:41-42 | a lower bound on every defined cell bounds every defined mean from below |
| `Series.RollingMeanAtMost` | indicators/trend/ADX.py:46 | an upper bound on every defined cell bounds every defined mean from above |
| `Series.RollingMeanPointwiseLe` | indicators/trend/ADX.py:32-42 | if `a + b <= c` holds cell by cell, the same holds for the three rolling means wherever the window is complete |
| `Series.Atr` | indicators/candlestick/CandlestickEngulfing.py:26-37 | ATR keeps the length; row `i` is defined iff `1 <= period <= i+1`; with well-formed bars it is non-negative (ADX.py:28-32 computes the same column) |
| `CandlestickEngulfing.BodyRangeRatio` | indicators/candlestick/CandlestickEngulfing.py:18-24 | the ratio is 0 when the range is NaN or not positive; it is NaN iff the range is positive and open or close is NaN; it is never negative; for a bar whose body lies within its range it is defined and at most 100 |
| `CandlestickEngulfing.RatioAtLeast` | indicators/candlestick/CandlestickEngulfing.py:18-24 | the computed ratio is at least `t` iff `100 * |open - close| >= t * (high - low)` for a positive range, and iff `0 >= t` otherwise (`BodyAtLeast`); this fixes the ratio's value as `100 * |open - close| / (high - low)` |
| `CandlestickEngulfing.BodyAtLeastMonotone` | indicators/candlestick/CandlestickEngulfing.py:70-71 | a bar that meets a body-ratio threshold meets every lower threshold |
| `CandlestickEngulfing.BearishRow` | indicators/candlestick/CandlestickEngulfing.py:65-72 | the six bearish conjuncts hold only when the previous high and low are defined, and then the body `open - close` is at least the previous range |
| `CandlestickEngulfing.BullishRow` | indicators/candlestick/CandlestickEngulfing.py:75-82 | the six bullish conjuncts hold only when the previous high and low are defined, and then the body `close - open` is at least the previous range |
| `CandlestickEngulfing.AtrConditionAt` | indicators/candlestick/CandlestickEngulfing.py:86-88 | `body_size > atr` can hold only once the ATR window is complete, at row `atr_period - 1` or later |
| `CandlestickEngulfing.BearishAt` | indicators/candlestick/CandlestickEngulfing.py:47-90 | a bearish row is never row 0, is a red bar and has a body at least the previous range; with the filter on it is false before row `atr_period - 1` |
| `CandlestickEngulfing.BullishAt` | indicators/candlestick/CandlestickEngulfing.py:47-91 | a bullish row is never row 0, is a green bar and has a body at least the previous range; with the filter on it is false before row `atr_period - 1` |
| `CandlestickEngulfing.DetectEngulfing` | indicators/candlestick/CandlestickEngulfing.py:39-93 | both columns have the input's length; row 0 is false in both; no row is both bullish and bearish; a bearish row has `open - close >=` the previous range, and a bullish row has `close - open >=` the previous range; with the ATR filter on, no row before `atr_period - 1` signals |
| `CandlestickEngulfing.RowRule` | indicators/candlestick/CandlestickEngulfing.py:64-82 | over a defined previous bar, each six-part condition is its four price comparisons and both ratio thresholds stated on the bar fields (`BodyAtLeast`) |
| `CandlestickEngulfing.SignalRuleAt` | indicators/candlestick/CandlestickEngulfing.py:47-91 | one row `i >= 1` of the full rule below, on the row functions |
| `CandlestickEngulfing.SignalRule` | indicators/candlestick/CandlestickEngulfing.py:39-93 | for any configuration, on every row after the first: bearish iff `open >= prev high`, `close <= prev low`, `open > close`, `prev open < prev close`, the previous bar meets `min_body_pct_left`, the current bar meets `min_body_pct_right`, and (with the filter on) `|open - close| > ATR`; bullish is the mirror image |
| `CandlestickEngulfing.ThresholdsOnlyRemove` | indicators/candlestick/CandlestickEngulfing.py:70-71 | raising `min_body_pct_left` or `min_body_pct_right` never adds a bullish or bearish signal (lines 80-81 likewise) |
| `CandlestickEngulfing.ThresholdScenario` | indicators/candlestick/CandlestickEngulfing.py:70 | on the two-bar example, whose previous body ratio is about 83%, a left threshold of 80 keeps the bearish signal and one of 90 removes it |
| `CandlestickEngulfing.AtrFilterOnlyRemoves` | indicators/candlestick/CandlestickEngulfing.py:84-91 | with the filter on, each signal is the unfiltered signal AND `|open - close| > ATR`, so turning the filter on never adds a signal |
| `CandlestickEngulfing.AtrFilterAt` | indicators/candlestick/CandlestickEngulfing.py:84-91 | one row of the same statement, on the row functions |
| `CandlestickEngulfing.ZeroThresholdsLeavePriceTests` | indicators/candlestick/CandlestickEngulfing.py:64-82 | with both thresholds at most 0 (the default is 0) and no filter, on every row after the first, bearish and bullish are exactly their four price comparisons |
| `CandlestickEngulfing.ZeroThresholdsAt` | indicators/candlestick/CandlestickEngulfing.py:47-82 | one row `i >= 1` of the same statement, on the row functions |
| `CandlestickEngulfing.ZeroThresholdsRow` | indicators/candlestick/CandlestickEngulfing.py:18-82 | with defined previous cells both body ratios are defined and non-negative, so thresholds at most 0 leave the four price comparisons |
| `CandlestickEngulfing.DefaultIsPriceTestsOnly` | indicators/candlestick/CandlestickEngulfing.py:12-16 | under the constructor defaults (`Default`: thresholds 0, no filter, ATR period 14) each signal on a row after the first is exactly its four price comparisons |
| `CandlestickEngulfing.BearishEngulfsPreviousBody` | indicators/candlestick/CandlestickEngulfing.py:64-72 | if the previous bar is well formed, a bearish row's body contains the previous body: `close <= prev open < prev close <= open` |
| `CandlestickEngulfing.BullishEngulfsPreviousBody` | indicators/candlestick/CandlestickEngulfing.py:74-82 | if the previous bar is well formed, a bullish row's body contains the previous body: `open <= prev close < prev open <= close` |
| `CandlestickEngulfing.BearishScenario` | indicators/candlestick/CandlestickEngulfing.py:64-82 | a green bar (100, 111, 99, 110) followed by a red bar (112, 113, 94, 95) is bearish and not bullish under the defaults |
| `CandlestickInsideBar.DetectInsideBar` | indicators/candlestick/CandlestickInsideBar.py:14-28 | the column has the input's length; row 0 is false; row `i >= 1` is true iff `high < prev high` and `low > prev low` |
| `CandlestickInsideBar.InsideBarIsNarrower` | indicators/candlestick/CandlestickInsideBar.py:26 | an inside bar's range is strictly narrower than the previous bar's range |
| `CandlestickInsideBar.RepeatedRangeIsNotInside` | indicators/candlestick/CandlestickInsideBar.py:26 | a bar with its predecessor's high and low is never an inside bar |
| `CandlestickInsideBar.InsideBarScenario` | indicators/candlestick/CandlestickInsideBar.py:26 | a range of 95..105 after 90..110 is inside; a range of 95..115 after 90..110 is not |
| `Adx.Where` | indicators/trend/ADX.py:37-38 | `x.where(cond, 0)` keeps `x` where `cond` holds and gives 0 elsewhere |
| `Adx.RawPlus` | indicators/trend/ADX.py:35 | `high - high.shift(1)` is NaN exactly on row 0 and the upward move of the high elsewhere |
| `Adx.RawMinus` | indicators/trend/ADX.py:36 | `low.shift(1) - low` is NaN exactly on row 0 and the downward move of the low elsewhere |
| `Adx.PlusAt` | indicators/trend/ADX.py:35-37 | filtered `dm_plus` is defined and at least 0; it is 0 on row 0; on later rows it is non-zero iff `up > down` and `up > 0`, and then it equals `up` |
| `Adx.MinusAt` | indicators/trend/ADX.py:35-38 | filtered `dm_minus` is defined and at least 0; it is 0 on row 0; on later rows it is non-zero iff `down > 0` and `down >= up`, and then it equals `down`; it is 0 whenever `dm_plus` is non-zero |
| `Adx.DirectionalMovements` | indicators/trend/ADX.py:35-38 | both columns have the input's length; both are non-negative; at most one is non-zero on each row; both are 0 on row 0 |
| `Adx.TieKeepsDownwardMove` | indicators/trend/ADX.py:37-38 | if `up == down > 0`, then `dm_plus` is 0 and `dm_minus` keeps the raw `down` |
| `Adx.IndicatorCell` | indicators/trend/ADX.py:41-42 | a DI cell is defined iff its mean and the ATR are defined and the ATR is non-zero; a defined cell times the ATR is 100 times the mean; for a non-negative mean it has the sign of the ATR |
| `Adx.DirectionalIndicator` | indicators/trend/ADX.py:41-42 | the DI column keeps the length and row `i` is the DI cell of row `i`'s mean movement and ATR |
| `Adx.DirectionalIndicators` | indicators/trend/ADX.py:41-42 | DI+ and DI- have the input's length; each is defined iff `1 <= period <= i+1` and the ATR is not 0; where ATR > 0 both are at least 0; where ATR < 0 both are at most 0 |
| `Adx.DirectionalIndex` | indicators/trend/ADX.py:45 | DX is defined iff both DIs are defined and their sum is non-zero; with non-negative DIs it lies in [0, 100] |
| `Adx.DxAt` | indicators/trend/ADX.py:45 | one DX cell is defined iff both DIs are defined with a non-zero sum; a defined cell times the sum of the DIs is 100 times their absolute difference; with non-negative DIs it lies in [0, 100] |
| `Adx.Dx` | indicators/trend/ADX.py:45 | DX has the input's length and is undefined on every row before `period - 1` |
| `Adx.Calculate` | indicators/trend/ADX.py:22-48 | all three outputs have the input's length; DI+ and DI- are the columns of `DirectionalIndicators`; ADX at row `i` is defined iff `1 <= period <= i+1` and DX is defined on all `period` rows of the window ending at `i`; so it is undefined on every row `i < 2*period - 2` (and on every row when `period` is 0) |
| `Adx.DefaultWarmUp` | indicators/trend/ADX.py:10-11 | with the constructor default `period = 14` (`DefaultPeriod`), DI+ and DI- have no value on the first 13 rows and ADX none on the first 26 |
| `Adx.DxBounded` | indicators/trend/ADX.py:41-45 | wherever DI+ + DI- > 0, DX is defined and lies in [0, 100], for any bars |
| `Adx.MovementWithinTrueRange` | indicators/trend/ADX.py:28-38 | with well-formed bars, `dm_plus + dm_minus <= tr` on every row |
| `Adx.MeanMovementWithinAtr` | indicators/trend/ADX.py:32-42 | with well-formed bars and a complete window, both mean movements are defined and non-negative, and their sum is at most the ATR |
| `Adx.IndicatorsBounded` | indicators/trend/ADX.py:41-42 | with well-formed bars, wherever DI+ is defined DI- is too; both are at least 0 and their sum is at most 100 |
| `Adx.AdxBounded` | indicators/trend/ADX.py:45-46 | with well-formed bars every defined ADX lies in [0, 100] |
| `Adx.ZeroAtrIsZeroOverZero` | indicators/trend/ADX.py:32-42 | with well-formed bars, a zero ATR comes with zero mean movement in both directions, so the DI division there is 0/0 (NaN), never a signed infinity |

## Left out

- indicators/momentum/BBForce.py and indicators/momentum/MACDV.py are not part of this model. The first is floating-point arithmetic over pandas' rolling sample standard deviation. The second wraps pandas' `ewm(span=...).mean()`, whose weighting convention is not visible here.
- indicators/__init__.py (it only re-exports) and test_indicators.py (the test harness) are not modelled.
- The DataFrame index, column lookup by name and the `df.apply` dispatch are not modelled. Columns are sequences in bar order. A missing column (pandas' `KeyError`) cannot arise because every `Bar` has all four fields.
- NaN cells in the input are not modelled: bar fields are `real`. NaN appears only where the computation makes it: through `shift`, rolling warm-up and zero denominators.
- Floating-point rounding is not modelled: arithmetic is exact over `real`.
- `Num.Div`: a zero denominator gives `None`, where pandas gives +inf, -inf or NaN. For DI with well-formed bars the case is always 0/0 (`Adx.ZeroAtrIsZeroOverZero`). For DX it is 0/0 as well, because both DIs are non-negative (`Adx.IndicatorsBounded`). With bars that are not well formed, an infinity would be reported as NaN.
- Window sizes: `period` and `atr_period` are `nat`. A negative window, which pandas rejects with an error, is outside the model. The model gives a window of 0 no value on any row, taking the mean of an empty window as undefined.
- `fillna(False)` on the engulfing result has no counterpart. Every comparison with NaN is already false, so the columns are plain booleans.
- The constructors only store configuration. The datatype `CandlestickEngulfing.Config` with the constant `CandlestickEngulfing.Default` stands for the engulfing detector's constructor (CandlestickEngulfing.py:12-16). The `period` argument of `Adx.Calculate` with the constant `Adx.DefaultPeriod` stands for ADX's (ADX.py:10-11). The inside-bar detector has no constructor. A datatype and a constant have no contract, so they have no row above; `DefaultIsPriceTestsOnly` and `DefaultWarmUp` state what the defaults mean.
