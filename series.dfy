/** Bars, float columns and the column primitives the indicators share:
    `shift(1)`, row-wise `max` that skips NaN, trailing `rolling(...).mean()`,
    and the True Range. */
module Series {
  import opened Num

  /** One row of the input table. */
  datatype Bar = Bar(open: real, high: real, low: real, close: real)

  /** A float column, one cell per bar; `None` is NaN. */
  type Column = seq<Option<real>>

  /** The invariant callers are expected to keep: the body lies within the range.
      No indicator checks it. */
  predicate WellFormed(b: Bar) {
    b.low <= b.open <= b.high && b.low <= b.close <= b.high
  }

  predicate AllWellFormed(bars: seq<Bar>) {
    forall k :: 0 <= k < |bars| ==> WellFormed(bars[k])
  }

  function Opens(bars: seq<Bar>): (c: Column)
    ensures |c| == |bars|
    ensures forall k :: 0 <= k < |bars| ==> c[k] == Some(bars[k].open)
  {
    seq(|bars|, i requires 0 <= i < |bars| => Some(bars[i].open))
  }

  function Highs(bars: seq<Bar>): (c: Column)
    ensures |c| == |bars|
    ensures forall k :: 0 <= k < |bars| ==> c[k] == Some(bars[k].high)
  {
    seq(|bars|, i requires 0 <= i < |bars| => Some(bars[i].high))
  }

  function Lows(bars: seq<Bar>): (c: Column)
    ensures |c| == |bars|
    ensures forall k :: 0 <= k < |bars| ==> c[k] == Some(bars[k].low)
  {
    seq(|bars|, i requires 0 <= i < |bars| => Some(bars[i].low))
  }

  function Closes(bars: seq<Bar>): (c: Column)
    ensures |c| == |bars|
    ensures forall k :: 0 <= k < |bars| ==> c[k] == Some(bars[k].close)
  {
    seq(|bars|, i requires 0 <= i < |bars| => Some(bars[i].close))
  }

  /** `shift(1)`: every cell moves one position later and the first becomes NaN. */
  function Shift(c: Column): (r: Column)
    ensures |r| == |c|
    ensures |c| > 0 ==> r[0].None?
    ensures forall i :: 1 <= i < |c| ==> r[i] == c[i - 1]
  {
    if |c| == 0 then [] else [None] + c[..|c| - 1]
  }

  /** Row `i` of `shift(1)`. */
  function ShiftAt(c: Column, i: nat): (r: Option<real>)
    requires i < |c|
    ensures r == Shift(c)[i]
    ensures i == 0 ==> r.None?
  {
    if i == 0 then None else c[i - 1]
  }

  function MaxOpt(a: Option<real>, b: Option<real>): Option<real> {
    if a.None? then b
    else if b.None? then a
    else Some(Max(a.value, b.value))
  }

  /** Row-wise `max(axis=1)` with pandas' default `skipna=True`: the largest
      defined cell, and NaN only when every cell is NaN. */
  function MaxSkipNa(s: Column): (r: Option<real>)
    ensures r.Some? <==> exists k :: 0 <= k < |s| && s[k].Some?
    ensures r.Some? ==> forall k :: 0 <= k < |s| && s[k].Some? ==> s[k].value <= r.value
    ensures r.Some? ==> exists k :: 0 <= k < |s| && s[k] == r
    decreases |s|
  {
    if |s| == 0 then None
    else
      var rest := MaxSkipNa(s[1..]);
      assert forall k :: 1 <= k < |s| ==> s[k] == s[1..][k - 1];
      MaxOpt(s[0], rest)
  }

  /** The sum of a window; NaN as soon as one cell is NaN. */
  function Sum(s: Column): Option<real>
    decreases |s|
  {
    if |s| == 0 then Some(0.0) else Add(Sum(s[..|s| - 1]), s[|s| - 1])
  }

  lemma {:induction false} SumDefined(s: Column)
    ensures Sum(s).Some? <==> forall k :: 0 <= k < |s| ==> s[k].Some?
    decreases |s|
  {
    if |s| > 0 {
      SumDefined(s[..|s| - 1]);
      assert forall k :: 0 <= k < |s| - 1 ==> s[..|s| - 1][k] == s[k];
    }
  }

  /** A window of cells that are all at least `lo` sums to at least `|s| * lo`. */
  lemma {:induction false} SumAtLeast(s: Column, lo: real)
    requires forall k :: 0 <= k < |s| ==> s[k].Some? && lo <= s[k].value
    ensures Sum(s).Some? && |s| as real * lo <= Sum(s).value
    decreases |s|
  {
    if |s| > 0 {
      var init := s[..|s| - 1];
      assert forall k :: 0 <= k < |init| ==> init[k] == s[k];
      SumAtLeast(init, lo);
    }
  }

  /** A window of cells that are all at most `hi` sums to at most `|s| * hi`. */
  lemma {:induction false} SumAtMost(s: Column, hi: real)
    requires forall k :: 0 <= k < |s| ==> s[k].Some? && s[k].value <= hi
    ensures Sum(s).Some? && Sum(s).value <= |s| as real * hi
    decreases |s|
  {
    if |s| > 0 {
      var init := s[..|s| - 1];
      assert forall k :: 0 <= k < |init| ==> init[k] == s[k];
      SumAtMost(init, hi);
    }
  }

  /** Cell-wise `a + b <= c` carries over to the sums of the three windows. */
  lemma {:induction false} SumPointwiseLe(a: Column, b: Column, c: Column)
    requires |a| == |b| == |c|
    requires forall k :: 0 <= k < |a| ==>
               a[k].Some? && b[k].Some? && c[k].Some? && a[k].value + b[k].value <= c[k].value
    ensures Sum(a).Some? && Sum(b).Some? && Sum(c).Some?
    ensures Sum(a).value + Sum(b).value <= Sum(c).value
    decreases |a|
  {
    if |a| > 0 {
      var n := |a| - 1;
      assert forall k :: 0 <= k < n ==> a[..n][k] == a[k] && b[..n][k] == b[k] && c[..n][k] == c[k];
      SumPointwiseLe(a[..n], b[..n], c[..n]);
    }
  }

  /** The cells `i-w+1 ..= i`: the trailing window of width `w` ending at `i`. */
  function Window(c: Column, i: nat, w: nat): (win: Column)
    requires i < |c| && 1 <= w <= i + 1
    ensures |win| == w
    ensures forall k :: 0 <= k < w ==> win[k] == c[i + 1 - w + k]
  {
    c[i + 1 - w..i + 1]
  }

  /** The trailing mean ending at `i`, with pandas' default `min_periods = w`:
      a value only when all `w` cells of a complete window are defined. A
      window of width 0 is empty, so its mean has no value. */
  function MeanAt(c: Column, i: nat, w: nat): (r: Option<real>)
    requires i < |c|
    ensures r.Some? <==> 1 <= w <= i + 1 && forall k :: i + 1 - w <= k <= i ==> c[k].Some?
    ensures r.Some? ==> Sum(Window(c, i, w)).Some? && r.value * (w as real) == Sum(Window(c, i, w)).value
  {
    if w == 0 || i + 1 < w then None
    else
      var win := Window(c, i, w);
      SumDefined(win);
      assert (forall k :: i + 1 - w <= k <= i ==> c[k].Some?) <==>
             (forall k :: 0 <= k < w ==> win[k].Some?) by {
        assert forall k :: i + 1 - w <= k <= i ==> c[k] == win[k - (i + 1 - w)];
      }
      var m := Div(Sum(win), Some(w as real));
      assert m.Some? ==> m.value * (w as real) == Sum(win).value;
      m
  }

  /** `rolling(window=w).mean()`. */
  function RollingMean(c: Column, w: nat): (r: Column)
    ensures |r| == |c|
    ensures forall i :: 0 <= i < |c| ==>
              (r[i].Some? <==> 1 <= w <= i + 1 && forall k :: i + 1 - w <= k <= i ==> c[k].Some?)
  {
    seq(|c|, i requires 0 <= i < |c| => MeanAt(c, i, w))
  }

  /** A column with no NaN has a rolling mean exactly from position `w - 1` on. */
  lemma RollingMeanOfDefined(c: Column, w: nat)
    requires forall k :: 0 <= k < |c| ==> c[k].Some?
    ensures forall i :: 0 <= i < |c| ==> (RollingMean(c, w)[i].Some? <==> 1 <= w <= i + 1)
  {
  }

  /** A lower bound on every defined cell bounds the trailing mean at `i` from below. */
  lemma MeanAtAtLeast(c: Column, i: nat, w: nat, lo: real)
    requires i < |c| && MeanAt(c, i, w).Some?
    requires forall k :: 0 <= k < |c| && c[k].Some? ==> lo <= c[k].value
    ensures lo <= MeanAt(c, i, w).value
  {
    var win := Window(c, i, w);
    SumAtLeast(win, lo);
    var n := w as real;
    assert MeanAt(c, i, w) == Some(Sum(win).value / n);
    QuotientBounds(Sum(win).value, n, lo, Sum(win).value / n);
  }

  /** An upper bound on every defined cell bounds the trailing mean at `i` from above. */
  lemma MeanAtAtMost(c: Column, i: nat, w: nat, hi: real)
    requires i < |c| && MeanAt(c, i, w).Some?
    requires forall k :: 0 <= k < |c| && c[k].Some? ==> c[k].value <= hi
    ensures MeanAt(c, i, w).value <= hi
  {
    var win := Window(c, i, w);
    SumAtMost(win, hi);
    var n := w as real;
    assert MeanAt(c, i, w) == Some(Sum(win).value / n);
    QuotientBounds(Sum(win).value, n, Sum(win).value / n, hi);
  }

  /** A lower bound on every defined cell is a lower bound on every defined mean. */
  lemma RollingMeanAtLeast(c: Column, w: nat, lo: real)
    requires forall k :: 0 <= k < |c| && c[k].Some? ==> lo <= c[k].value
    ensures forall i :: 0 <= i < |c| && RollingMean(c, w)[i].Some? ==> lo <= RollingMean(c, w)[i].value
  {
    var r := RollingMean(c, w);
    forall i | 0 <= i < |c| && r[i].Some?
      ensures lo <= r[i].value
    {
      assert r[i] == MeanAt(c, i, w);
      MeanAtAtLeast(c, i, w, lo);
    }
  }

  /** An upper bound on every defined cell is an upper bound on every defined mean. */
  lemma RollingMeanAtMost(c: Column, w: nat, hi: real)
    requires forall k :: 0 <= k < |c| && c[k].Some? ==> c[k].value <= hi
    ensures forall i :: 0 <= i < |c| && RollingMean(c, w)[i].Some? ==> RollingMean(c, w)[i].value <= hi
  {
    var r := RollingMean(c, w);
    forall i | 0 <= i < |c| && r[i].Some?
      ensures r[i].value <= hi
    {
      assert r[i] == MeanAt(c, i, w);
      MeanAtAtMost(c, i, w, hi);
    }
  }

  /** Cell-wise `a + b <= c` carries over to the rolling means, where all three are defined. */
  lemma RollingMeanPointwiseLe(a: Column, b: Column, c: Column, w: nat, i: nat)
    requires |a| == |b| == |c| && i < |a|
    requires forall k :: 0 <= k < |a| ==>
               a[k].Some? && b[k].Some? && c[k].Some? && a[k].value + b[k].value <= c[k].value
    requires 1 <= w <= i + 1
    ensures RollingMean(a, w)[i].Some? && RollingMean(b, w)[i].Some? && RollingMean(c, w)[i].Some?
    ensures RollingMean(a, w)[i].value + RollingMean(b, w)[i].value <= RollingMean(c, w)[i].value
  {
    var wa, wb, wc := Window(a, i, w), Window(b, i, w), Window(c, i, w);
    SumPointwiseLe(wa, wb, wc);
    var sa, sb, sc := Sum(wa).value, Sum(wb).value, Sum(wc).value;
    var n := w as real;
    assert RollingMean(a, w)[i] == MeanAt(a, i, w) && RollingMean(b, w)[i] == MeanAt(b, i, w);
    assert RollingMean(c, w)[i] == MeanAt(c, i, w);
    QuotientSumLe(sa, sb, sc, n);
  }

  /** True Range at row `i`: `max(high - low, |high - prev close|, |low - prev close|)`,
      skipping NaN, so the first row (which has no previous close) is `high - low`. */
  function TrueRangeAt(bars: seq<Bar>, i: nat): (t: Option<real>)
    requires i < |bars|
    ensures t.Some? && t.value >= bars[i].high - bars[i].low
    ensures i == 0 ==> t.value == bars[0].high - bars[0].low
    ensures i > 0 ==>
              var b, pc := bars[i], bars[i - 1].close;
              && t.value >= Abs(b.high - pc)
              && t.value >= Abs(b.low - pc)
              && (t.value == b.high - b.low || t.value == Abs(b.high - pc) || t.value == Abs(b.low - pc))
  {
    var b := bars[i];
    var prevClose := if i == 0 then None else Some(bars[i - 1].close);
    var cells := [Some(b.high - b.low), AbsOpt(Sub(Some(b.high), prevClose)), AbsOpt(Sub(Some(b.low), prevClose))];
    assert cells[0].Some?;
    assert i > 0 ==> cells[1] == Some(Abs(b.high - bars[i - 1].close)) && cells[2] == Some(Abs(b.low - bars[i - 1].close));
    MaxSkipNa(cells)
  }

  /** The True Range column: `pd.concat([tr1, tr2, tr3], axis=1).max(axis=1)`. */
  function TrueRange(bars: seq<Bar>): (tr: Column)
    ensures |tr| == |bars|
    ensures forall i :: 0 <= i < |bars| ==> tr[i] == TrueRangeAt(bars, i)
  {
    seq(|bars|, i requires 0 <= i < |bars| => TrueRangeAt(bars, i))
  }

  /** With well-formed bars every True Range is non-negative. */
  lemma TrueRangeNonNegative(bars: seq<Bar>)
    requires AllWellFormed(bars)
    ensures forall i :: 0 <= i < |bars| ==> TrueRange(bars)[i].value >= 0.0
  {
  }

  /** Average True Range: the rolling mean of True Range over `period` rows. */
  function Atr(bars: seq<Bar>, period: nat): (atr: Column)
    ensures |atr| == |bars|
    ensures forall i :: 0 <= i < |bars| ==> (atr[i].Some? <==> 1 <= period <= i + 1)
    ensures AllWellFormed(bars) ==> forall i :: 0 <= i < |bars| && atr[i].Some? ==> atr[i].value >= 0.0
  {
    var tr := TrueRange(bars);
    RollingMeanOfDefined(tr, period);
    assert AllWellFormed(bars) ==>
             forall i :: 0 <= i < |bars| && RollingMean(tr, period)[i].Some? ==> RollingMean(tr, period)[i].value >= 0.0 by {
      if AllWellFormed(bars) {
        TrueRangeNonNegative(bars);
        RollingMeanAtLeast(tr, period, 0.0);
      }
    }
    RollingMean(tr, period)
  }
}
