/** The inside-bar detector of indicators/candlestick/CandlestickInsideBar.py:
    a bar whose range lies strictly inside the previous bar's range. */
module CandlestickInsideBar {
  import opened Num
  import opened Series

  /** `detect_inside_bar`: `(high < prev_high) & (low > prev_low)` over the
      shifted columns; the first row compares with NaN and is false. */
  function DetectInsideBar(bars: seq<Bar>): (r: seq<bool>)
    ensures |r| == |bars|
    ensures |bars| > 0 ==> !r[0]
    ensures forall i :: 1 <= i < |bars| ==>
              (r[i] <==> bars[i].high < bars[i - 1].high && bars[i].low > bars[i - 1].low)
  {
    var high, low := Highs(bars), Lows(bars);
    var prevHigh, prevLow := Shift(high), Shift(low);
    seq(|bars|, i requires 0 <= i < |bars| => Lt(high[i], prevHigh[i]) && Gt(low[i], prevLow[i]))
  }

  /** An inside bar has a strictly narrower range than the bar before it. */
  lemma InsideBarIsNarrower(bars: seq<Bar>, i: nat)
    requires 1 <= i < |bars| && DetectInsideBar(bars)[i]
    ensures bars[i].high - bars[i].low < bars[i - 1].high - bars[i - 1].low
  {
  }

  /** Both comparisons are strict, so a bar with its predecessor's high and low
      is never an inside bar. */
  lemma RepeatedRangeIsNotInside(bars: seq<Bar>, i: nat)
    requires 1 <= i < |bars|
    requires bars[i].high == bars[i - 1].high && bars[i].low == bars[i - 1].low
    ensures !DetectInsideBar(bars)[i]
  {
  }

  /** A range of 95..105 after 90..110 is inside; a range of 95..115 is not. */
  lemma InsideBarScenario()
    ensures DetectInsideBar([Bar(100.0, 110.0, 90.0, 100.0), Bar(100.0, 105.0, 95.0, 100.0)])[1]
    ensures !DetectInsideBar([Bar(100.0, 110.0, 90.0, 100.0), Bar(100.0, 115.0, 95.0, 100.0)])[1]
  {
  }
}
