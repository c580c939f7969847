/** The engulfing-pattern detector of
    indicators/candlestick/CandlestickEngulfing.py: a bar whose open and close
    reach past the previous bar's high and low, in the opposite direction,
    optionally filtered by the Average True Range. */
module CandlestickEngulfing {
  import opened Num
  import opened Series

  /** What the constructor stores; it computes nothing. */
  datatype Config = Config(
    minBodyPctLeft: real,   // least body-to-range ratio (percent) of the previous bar
    minBodyPctRight: real,  // least body-to-range ratio (percent) of the current bar
    filterByAtr: bool,      // also require the current body to exceed the ATR
    atrPeriod: nat          // window of the ATR rolling mean
  )

  /** The constructor's default arguments. */
  const Default: Config := Config(0.0, 0.0, false, 14)

  /** The two output columns, in the order the source returns them. */
  datatype Signals = Signals(bullish: seq<bool>, bearish: seq<bool>)

  /** `|open - close| / (high - low) * 100`, or 0 when the range is NaN or not
      positive. A NaN open or close under a positive range stays NaN. */
  function BodyRangeRatio(open: Option<real>, close: Option<real>, high: Option<real>, low: Option<real>): (r: Option<real>)
    ensures Sub(high, low).None? || Sub(high, low).value <= 0.0 ==> r == Some(0.0)
    ensures r.None? <==> Gt(Sub(high, low), Some(0.0)) && (open.None? || close.None?)
    ensures r.Some? ==> r.value >= 0.0
    ensures open.Some? && close.Some? && high.Some? && low.Some? &&
            low.value <= open.value <= high.value && low.value <= close.value <= high.value
            ==> r.Some? && r.value <= 100.0
  {
    var bodyRange := AbsOpt(Sub(open, close));
    var totalRange := Sub(high, low);
    if totalRange.None? || totalRange.value <= 0.0 then Some(0.0)
    else
      var ratio := Mul(Div(bodyRange, totalRange), Some(100.0));
      assert bodyRange.Some? && bodyRange.value <= totalRange.value ==> ratio.value <= 100.0 by {
        if bodyRange.Some? && bodyRange.value <= totalRange.value {
          QuotientBounds(bodyRange.value, totalRange.value, 0.0, 1.0);
        }
      }
      ratio
  }

  /** The test `body ratio >= t` for one bar, written without the division:
      `100 * |open - close| >= t * (high - low)` for a positive range, and
      `0 >= t` otherwise, where the ratio is 0. */
  predicate BodyAtLeast(b: Bar, t: real) {
    if b.high - b.low > 0.0 then 100.0 * Abs(b.open - b.close) >= t * (b.high - b.low) else 0.0 >= t
  }

  /** The computed ratio passes a threshold exactly when the bar meets `BodyAtLeast`;
      this pins the ratio's value to `100 * |open - close| / (high - low)`. */
  lemma RatioAtLeast(b: Bar, t: real)
    ensures Ge(BodyRangeRatio(Some(b.open), Some(b.close), Some(b.high), Some(b.low)), Some(t)) <==> BodyAtLeast(b, t)
  {
    var d := b.high - b.low;
    if d > 0.0 {
      var body := Abs(b.open - b.close);
      var q := body / d;
      var ratio := q * 100.0;
      assert BodyRangeRatio(Some(b.open), Some(b.close), Some(b.high), Some(b.low)) == Some(ratio);
      assert q * d == body;
      assert ratio * d == 100.0 * (q * d);
      assert BodyAtLeast(b, t) == (100.0 * body >= t * d);
      ScaleByPositive(ratio, t, d);
    }
  }

  /** A bar that meets a threshold meets every lower one. */
  lemma BodyAtLeastMonotone(b: Bar, lower: real, t: real)
    requires lower <= t && BodyAtLeast(b, t)
    ensures BodyAtLeast(b, lower)
  {
    if b.high - b.low > 0.0 {
      ScaleByPositive(t, lower, b.high - b.low);
    }
  }

  /** The six conjuncts of the bearish condition for one row: a red bar opening
      at or above the previous high and closing at or below the previous low,
      after a green bar, with both body ratios at their thresholds. */
  predicate BearishRow(minLeft: real, minRight: real, bar: Bar, prevOpen: Option<real>, prevHigh: Option<real>,
                       prevLow: Option<real>, prevClose: Option<real>)
    ensures BearishRow(minLeft, minRight, bar, prevOpen, prevHigh, prevLow, prevClose) ==>
              prevHigh.Some? && prevLow.Some? && bar.open - bar.close >= prevHigh.value - prevLow.value
  {
    && Ge(Some(bar.open), prevHigh)
    && Le(Some(bar.close), prevLow)
    && bar.open > bar.close
    && Lt(prevOpen, prevClose)
    && Ge(BodyRangeRatio(prevOpen, prevClose, prevHigh, prevLow), Some(minLeft))
    && Ge(BodyRangeRatio(Some(bar.open), Some(bar.close), Some(bar.high), Some(bar.low)), Some(minRight))
  }

  /** The mirror image: a green bar opening at or below the previous low and
      closing at or above the previous high, after a red bar. */
  predicate BullishRow(minLeft: real, minRight: real, bar: Bar, prevOpen: Option<real>, prevHigh: Option<real>,
                       prevLow: Option<real>, prevClose: Option<real>)
    ensures BullishRow(minLeft, minRight, bar, prevOpen, prevHigh, prevLow, prevClose) ==>
              prevHigh.Some? && prevLow.Some? && bar.close - bar.open >= prevHigh.value - prevLow.value
  {
    && Le(Some(bar.open), prevLow)
    && Ge(Some(bar.close), prevHigh)
    && bar.open < bar.close
    && Gt(prevOpen, prevClose)
    && Ge(BodyRangeRatio(prevOpen, prevClose, prevHigh, prevLow), Some(minLeft))
    && Ge(BodyRangeRatio(Some(bar.open), Some(bar.close), Some(bar.high), Some(bar.low)), Some(minRight))
  }

  /** Row `i` of `atr_condition`: the body exceeds the ATR; false while the ATR is NaN. */
  predicate AtrConditionAt(bars: seq<Bar>, period: nat, i: nat)
    requires i < |bars|
    ensures AtrConditionAt(bars, period, i) ==> 1 <= period <= i + 1
  {
    Gt(AbsOpt(Sub(Some(bars[i].open), Some(bars[i].close))), Atr(bars, period)[i])
  }

  /** Row `i` of the bearish column: the six conjuncts over the shifted columns,
      and with the filter on also the ATR condition. */
  function BearishAt(cfg: Config, bars: seq<Bar>, i: nat): (b: bool)
    requires i < |bars|
    ensures b ==> i >= 1 && bars[i].open - bars[i].close >= bars[i - 1].high - bars[i - 1].low
    ensures cfg.filterByAtr && i + 1 < cfg.atrPeriod ==> !b
    ensures b ==> bars[i].open > bars[i].close
  {
    var prevOpen, prevHigh := ShiftAt(Opens(bars), i), ShiftAt(Highs(bars), i);
    var prevLow, prevClose := ShiftAt(Lows(bars), i), ShiftAt(Closes(bars), i);
    assert i == 0 ==> prevHigh.None?;
    assert i > 0 ==> prevHigh == Some(bars[i - 1].high) && prevLow == Some(bars[i - 1].low);
    var row := BearishRow(cfg.minBodyPctLeft, cfg.minBodyPctRight, bars[i], prevOpen, prevHigh, prevLow, prevClose);
    if cfg.filterByAtr then row && AtrConditionAt(bars, cfg.atrPeriod, i) else row
  }

  /** Row `i` of the bullish column. */
  function BullishAt(cfg: Config, bars: seq<Bar>, i: nat): (b: bool)
    requires i < |bars|
    ensures b ==> i >= 1 && bars[i].close - bars[i].open >= bars[i - 1].high - bars[i - 1].low
    ensures cfg.filterByAtr && i + 1 < cfg.atrPeriod ==> !b
    ensures b ==> bars[i].open < bars[i].close
  {
    var prevOpen, prevHigh := ShiftAt(Opens(bars), i), ShiftAt(Highs(bars), i);
    var prevLow, prevClose := ShiftAt(Lows(bars), i), ShiftAt(Closes(bars), i);
    assert i == 0 ==> prevHigh.None?;
    assert i > 0 ==> prevHigh == Some(bars[i - 1].high) && prevLow == Some(bars[i - 1].low);
    var row := BullishRow(cfg.minBodyPctLeft, cfg.minBodyPctRight, bars[i], prevOpen, prevHigh, prevLow, prevClose);
    if cfg.filterByAtr then row && AtrConditionAt(bars, cfg.atrPeriod, i) else row
  }

  /** `detect_engulfing`: the bullish and bearish columns. */
  function DetectEngulfing(cfg: Config, bars: seq<Bar>): (r: Signals)
    ensures |r.bullish| == |bars| && |r.bearish| == |bars|
    ensures |bars| > 0 ==> !r.bullish[0] && !r.bearish[0]
    ensures forall i :: 0 <= i < |bars| ==> !(r.bullish[i] && r.bearish[i])
    ensures forall i :: 1 <= i < |bars| && r.bearish[i] ==>
              bars[i].open - bars[i].close >= bars[i - 1].high - bars[i - 1].low
    ensures forall i :: 1 <= i < |bars| && r.bullish[i] ==>
              bars[i].close - bars[i].open >= bars[i - 1].high - bars[i - 1].low
    ensures cfg.filterByAtr ==>
              forall i :: 0 <= i < |bars| && i + 1 < cfg.atrPeriod ==> !r.bullish[i] && !r.bearish[i]
  {
    var bullish := seq(|bars|, i requires 0 <= i < |bars| => BullishAt(cfg, bars, i));
    var bearish := seq(|bars|, i requires 0 <= i < |bars| => BearishAt(cfg, bars, i));
    Signals(bullish, bearish)
  }

  /** Turning the ATR filter on keeps exactly the unfiltered signals whose body
      exceeds the ATR, so it can only remove signals. */
  lemma AtrFilterOnlyRemoves(cfg: Config, bars: seq<Bar>)
    ensures var on := DetectEngulfing(cfg.(filterByAtr := true), bars);
            var off := DetectEngulfing(cfg.(filterByAtr := false), bars);
            var atr := Atr(bars, cfg.atrPeriod);
            forall i :: 0 <= i < |bars| ==>
              && (on.bullish[i] <==> off.bullish[i] && Gt(Some(Abs(bars[i].open - bars[i].close)), atr[i]))
              && (on.bearish[i] <==> off.bearish[i] && Gt(Some(Abs(bars[i].open - bars[i].close)), atr[i]))
              && (on.bullish[i] ==> off.bullish[i])
              && (on.bearish[i] ==> off.bearish[i])
  {
    var on := DetectEngulfing(cfg.(filterByAtr := true), bars);
    var off := DetectEngulfing(cfg.(filterByAtr := false), bars);
    var atr := Atr(bars, cfg.atrPeriod);
    forall i | 0 <= i < |bars|
      ensures && (on.bullish[i] <==> off.bullish[i] && Gt(Some(Abs(bars[i].open - bars[i].close)), atr[i]))
              && (on.bearish[i] <==> off.bearish[i] && Gt(Some(Abs(bars[i].open - bars[i].close)), atr[i]))
    {
      var cfgOn, cfgOff := cfg.(filterByAtr := true), cfg.(filterByAtr := false);
      assert on.bullish[i] == BullishAt(cfgOn, bars, i) && off.bullish[i] == BullishAt(cfgOff, bars, i);
      assert on.bearish[i] == BearishAt(cfgOn, bars, i) && off.bearish[i] == BearishAt(cfgOff, bars, i);
      AtrFilterAt(cfg, bars, i);
    }
  }

  /** Row `i` of AtrFilterOnlyRemoves, stated on the row functions. */
  lemma AtrFilterAt(cfg: Config, bars: seq<Bar>, i: nat)
    requires i < |bars|
    ensures var cfgOn, cfgOff := cfg.(filterByAtr := true), cfg.(filterByAtr := false);
            var body := Gt(Some(Abs(bars[i].open - bars[i].close)), Atr(bars, cfg.atrPeriod)[i]);
            && (BullishAt(cfgOn, bars, i) <==> BullishAt(cfgOff, bars, i) && body)
            && (BearishAt(cfgOn, bars, i) <==> BearishAt(cfgOff, bars, i) && body)
  {
    assert AtrConditionAt(bars, cfg.atrPeriod, i) <==> Gt(Some(Abs(bars[i].open - bars[i].close)), Atr(bars, cfg.atrPeriod)[i]);
  }

  /** With thresholds at their default of 0 (or below) and no ATR filter, the
      body-ratio conjuncts always hold and each signal is its four price comparisons. */
  lemma ZeroThresholdsLeavePriceTests(cfg: Config, bars: seq<Bar>)
    requires cfg.minBodyPctLeft <= 0.0 && cfg.minBodyPctRight <= 0.0 && !cfg.filterByAtr
    ensures var r := DetectEngulfing(cfg, bars);
            forall i :: 1 <= i < |bars| ==>
              var b, p := bars[i], bars[i - 1];
              && (r.bearish[i] <==> b.open >= p.high && b.close <= p.low && b.open > b.close && p.open < p.close)
              && (r.bullish[i] <==> b.open <= p.low && b.close >= p.high && b.open < b.close && p.open > p.close)
  {
    var r := DetectEngulfing(cfg, bars);
    forall i | 1 <= i < |bars|
      ensures var b, p := bars[i], bars[i - 1];
              && (r.bearish[i] <==> b.open >= p.high && b.close <= p.low && b.open > b.close && p.open < p.close)
              && (r.bullish[i] <==> b.open <= p.low && b.close >= p.high && b.open < b.close && p.open > p.close)
    {
      assert r.bearish[i] == BearishAt(cfg, bars, i) && r.bullish[i] == BullishAt(cfg, bars, i);
      ZeroThresholdsAt(cfg, bars, i);
    }
  }

  /** Row `i` of ZeroThresholdsLeavePriceTests, stated on the row functions. */
  lemma ZeroThresholdsAt(cfg: Config, bars: seq<Bar>, i: nat)
    requires cfg.minBodyPctLeft <= 0.0 && cfg.minBodyPctRight <= 0.0 && !cfg.filterByAtr
    requires 1 <= i < |bars|
    ensures var b, p := bars[i], bars[i - 1];
            && (BearishAt(cfg, bars, i) <==> b.open >= p.high && b.close <= p.low && b.open > b.close && p.open < p.close)
            && (BullishAt(cfg, bars, i) <==> b.open <= p.low && b.close >= p.high && b.open < b.close && p.open > p.close)
  {
    var b, p := bars[i], bars[i - 1];
    assert ShiftAt(Opens(bars), i) == Some(p.open) && ShiftAt(Highs(bars), i) == Some(p.high);
    assert ShiftAt(Lows(bars), i) == Some(p.low) && ShiftAt(Closes(bars), i) == Some(p.close);
    assert BearishAt(cfg, bars, i) == BearishRow(cfg.minBodyPctLeft, cfg.minBodyPctRight, b, Some(p.open), Some(p.high), Some(p.low), Some(p.close));
    assert BullishAt(cfg, bars, i) == BullishRow(cfg.minBodyPctLeft, cfg.minBodyPctRight, b, Some(p.open), Some(p.high), Some(p.low), Some(p.close));
    ZeroThresholdsRow(cfg.minBodyPctLeft, cfg.minBodyPctRight, b, p);
  }

  /** One row of ZeroThresholdsLeavePriceTests: with defined previous cells, both
      body ratios are defined and non-negative, so thresholds at most 0 always pass. */
  lemma ZeroThresholdsRow(minLeft: real, minRight: real, b: Bar, p: Bar)
    requires minLeft <= 0.0 && minRight <= 0.0
    ensures BearishRow(minLeft, minRight, b, Some(p.open), Some(p.high), Some(p.low), Some(p.close)) <==>
              b.open >= p.high && b.close <= p.low && b.open > b.close && p.open < p.close
    ensures BullishRow(minLeft, minRight, b, Some(p.open), Some(p.high), Some(p.low), Some(p.close)) <==>
              b.open <= p.low && b.close >= p.high && b.open < b.close && p.open > p.close
  {
    var left := BodyRangeRatio(Some(p.open), Some(p.close), Some(p.high), Some(p.low));
    var right := BodyRangeRatio(Some(b.open), Some(b.close), Some(b.high), Some(b.low));
    assert left.Some? && right.Some?;
  }

  /** Row `i >= 1` of the full engulfing rule, for any thresholds and either filter setting. */
  lemma SignalRuleAt(cfg: Config, bars: seq<Bar>, i: nat)
    requires 1 <= i < |bars|
    ensures var b, p := bars[i], bars[i - 1];
            var filter := !cfg.filterByAtr || Gt(Some(Abs(b.open - b.close)), Atr(bars, cfg.atrPeriod)[i]);
            var ratios := BodyAtLeast(p, cfg.minBodyPctLeft) && BodyAtLeast(b, cfg.minBodyPctRight);
            && (BearishAt(cfg, bars, i) <==>
                  b.open >= p.high && b.close <= p.low && b.open > b.close && p.open < p.close && ratios && filter)
            && (BullishAt(cfg, bars, i) <==>
                  b.open <= p.low && b.close >= p.high && b.open < b.close && p.open > p.close && ratios && filter)
  {
    var b, p := bars[i], bars[i - 1];
    RowsAt(cfg, bars, i);
    AtrConditionIsBodyAboveAtr(bars, cfg.atrPeriod, i);
    RowRule(cfg.minBodyPctLeft, cfg.minBodyPctRight, b, p);
  }

  /** Row `i >= 1` of both columns as the row predicates over the previous bar's fields. */
  lemma RowsAt(cfg: Config, bars: seq<Bar>, i: nat)
    requires 1 <= i < |bars|
    ensures var b, p := bars[i], bars[i - 1];
            var atrCondition := !cfg.filterByAtr || AtrConditionAt(bars, cfg.atrPeriod, i);
            && BearishAt(cfg, bars, i) == (BearishRow(cfg.minBodyPctLeft, cfg.minBodyPctRight, b,
                                              Some(p.open), Some(p.high), Some(p.low), Some(p.close)) && atrCondition)
            && BullishAt(cfg, bars, i) == (BullishRow(cfg.minBodyPctLeft, cfg.minBodyPctRight, b,
                                              Some(p.open), Some(p.high), Some(p.low), Some(p.close)) && atrCondition)
  {
    var p := bars[i - 1];
    assert ShiftAt(Opens(bars), i) == Some(p.open) && ShiftAt(Highs(bars), i) == Some(p.high);
    assert ShiftAt(Lows(bars), i) == Some(p.low) && ShiftAt(Closes(bars), i) == Some(p.close);
  }

  /** The ATR condition is the absolute body against the ATR cell. */
  lemma AtrConditionIsBodyAboveAtr(bars: seq<Bar>, period: nat, i: nat)
    requires i < |bars|
    ensures AtrConditionAt(bars, period, i) <==> Gt(Some(Abs(bars[i].open - bars[i].close)), Atr(bars, period)[i])
  {
  }

  /** The six conjuncts over a defined previous bar, with the ratio tests on the bar fields. */
  lemma RowRule(minLeft: real, minRight: real, b: Bar, p: Bar)
    ensures BearishRow(minLeft, minRight, b, Some(p.open), Some(p.high), Some(p.low), Some(p.close)) <==>
              b.open >= p.high && b.close <= p.low && b.open > b.close && p.open < p.close &&
              BodyAtLeast(p, minLeft) && BodyAtLeast(b, minRight)
    ensures BullishRow(minLeft, minRight, b, Some(p.open), Some(p.high), Some(p.low), Some(p.close)) <==>
              b.open <= p.low && b.close >= p.high && b.open < b.close && p.open > p.close &&
              BodyAtLeast(p, minLeft) && BodyAtLeast(b, minRight)
  {
    RatioAtLeast(p, minLeft);
    RatioAtLeast(b, minRight);
  }

  /** The engulfing rule on every row after the first: the four price comparisons,
      both body-ratio thresholds on the bar fields, and the ATR filter when it is on. */
  lemma SignalRule(cfg: Config, bars: seq<Bar>)
    ensures var r := DetectEngulfing(cfg, bars);
            forall i :: 1 <= i < |bars| ==>
              var b, p := bars[i], bars[i - 1];
              var filter := !cfg.filterByAtr || Gt(Some(Abs(b.open - b.close)), Atr(bars, cfg.atrPeriod)[i]);
              var ratios := BodyAtLeast(p, cfg.minBodyPctLeft) && BodyAtLeast(b, cfg.minBodyPctRight);
              && (r.bearish[i] <==>
                    b.open >= p.high && b.close <= p.low && b.open > b.close && p.open < p.close && ratios && filter)
              && (r.bullish[i] <==>
                    b.open <= p.low && b.close >= p.high && b.open < b.close && p.open > p.close && ratios && filter)
  {
    var r := DetectEngulfing(cfg, bars);
    forall i | 1 <= i < |bars|
      ensures var b, p := bars[i], bars[i - 1];
              var filter := !cfg.filterByAtr || Gt(Some(Abs(b.open - b.close)), Atr(bars, cfg.atrPeriod)[i]);
              var ratios := BodyAtLeast(p, cfg.minBodyPctLeft) && BodyAtLeast(b, cfg.minBodyPctRight);
              && (r.bearish[i] <==>
                    b.open >= p.high && b.close <= p.low && b.open > b.close && p.open < p.close && ratios && filter)
              && (r.bullish[i] <==>
                    b.open <= p.low && b.close >= p.high && b.open < b.close && p.open > p.close && ratios && filter)
    {
      assert r.bearish[i] == BearishAt(cfg, bars, i) && r.bullish[i] == BullishAt(cfg, bars, i);
      SignalRuleAt(cfg, bars, i);
    }
  }

  /** Raising either body-ratio threshold never adds a signal. */
  lemma ThresholdsOnlyRemove(cfg: Config, bars: seq<Bar>, left: real, right: real)
    requires cfg.minBodyPctLeft <= left && cfg.minBodyPctRight <= right
    ensures var strict := DetectEngulfing(cfg.(minBodyPctLeft := left, minBodyPctRight := right), bars);
            var loose := DetectEngulfing(cfg, bars);
            forall i :: 0 <= i < |bars| ==>
              (strict.bearish[i] ==> loose.bearish[i]) && (strict.bullish[i] ==> loose.bullish[i])
  {
    var cfg2 := cfg.(minBodyPctLeft := left, minBodyPctRight := right);
    var strict, loose := DetectEngulfing(cfg2, bars), DetectEngulfing(cfg, bars);
    forall i | 0 <= i < |bars|
      ensures (strict.bearish[i] ==> loose.bearish[i]) && (strict.bullish[i] ==> loose.bullish[i])
    {
      assert strict.bearish[i] == BearishAt(cfg2, bars, i) && strict.bullish[i] == BullishAt(cfg2, bars, i);
      assert loose.bearish[i] == BearishAt(cfg, bars, i) && loose.bullish[i] == BullishAt(cfg, bars, i);
      if i >= 1 && (strict.bearish[i] || strict.bullish[i]) {
        SignalRuleAt(cfg2, bars, i);
        SignalRuleAt(cfg, bars, i);
        BodyAtLeastMonotone(bars[i - 1], cfg.minBodyPctLeft, left);
        BodyAtLeastMonotone(bars[i], cfg.minBodyPctRight, right);
      }
    }
  }

  /** Under the constructor's defaults each signal is its four price comparisons. */
  lemma DefaultIsPriceTestsOnly(bars: seq<Bar>)
    ensures var r := DetectEngulfing(Default, bars);
            forall i :: 1 <= i < |bars| ==>
              var b, p := bars[i], bars[i - 1];
              && (r.bearish[i] <==> b.open >= p.high && b.close <= p.low && b.open > b.close && p.open < p.close)
              && (r.bullish[i] <==> b.open <= p.low && b.close >= p.high && b.open < b.close && p.open > p.close)
  {
    assert Default.minBodyPctLeft <= 0.0 && Default.minBodyPctRight <= 0.0 && !Default.filterByAtr;
    ZeroThresholdsLeavePriceTests(Default, bars);
  }

  /** For a well-formed previous bar, a bearish signal really engulfs that bar's body;
      this is the docstring's description, which the code reaches through high and low. */
  lemma BearishEngulfsPreviousBody(cfg: Config, bars: seq<Bar>, i: nat)
    requires 1 <= i < |bars| && WellFormed(bars[i - 1])
    requires DetectEngulfing(cfg, bars).bearish[i]
    ensures bars[i].close <= bars[i - 1].open < bars[i - 1].close <= bars[i].open
  {
  }

  /** The mirror statement for a bullish signal. */
  lemma BullishEngulfsPreviousBody(cfg: Config, bars: seq<Bar>, i: nat)
    requires 1 <= i < |bars| && WellFormed(bars[i - 1])
    requires DetectEngulfing(cfg, bars).bullish[i]
    ensures bars[i].open <= bars[i - 1].close < bars[i - 1].open <= bars[i].close
  {
  }

  /** A green bar followed by a red bar that opens above its high and closes below
      its low is bearish, not bullish, under the default configuration. */
  lemma BearishScenario()
    ensures var r := DetectEngulfing(Default, [Bar(100.0, 111.0, 99.0, 110.0), Bar(112.0, 113.0, 94.0, 95.0)]);
            r.bearish[1] && !r.bullish[1]
  {
  }

  /** The previous bar of BearishScenario has a body ratio of 10/12, about 83%:
      a left threshold of 80 keeps the signal and one of 90 removes it. */
  lemma ThresholdScenario()
    ensures var bars := [Bar(100.0, 111.0, 99.0, 110.0), Bar(112.0, 113.0, 94.0, 95.0)];
            && DetectEngulfing(Default.(minBodyPctLeft := 80.0), bars).bearish[1]
            && !DetectEngulfing(Default.(minBodyPctLeft := 90.0), bars).bearish[1]
  {
    var bars := [Bar(100.0, 111.0, 99.0, 110.0), Bar(112.0, 113.0, 94.0, 95.0)];
    SignalRuleAt(Default.(minBodyPctLeft := 80.0), bars, 1);
    SignalRuleAt(Default.(minBodyPctLeft := 90.0), bars, 1);
    assert DetectEngulfing(Default.(minBodyPctLeft := 80.0), bars).bearish[1] == BearishAt(Default.(minBodyPctLeft := 80.0), bars, 1);
    assert DetectEngulfing(Default.(minBodyPctLeft := 90.0), bars).bearish[1] == BearishAt(Default.(minBodyPctLeft := 90.0), bars, 1);
  }
}
