/** The Average Directional Index of indicators/trend/ADX.py: True Range and
    its rolling mean, filtered directional movement, the directional indicators
    DI+ and DI-, the directional index DX and its rolling mean. */
module Adx {
  import opened Num
  import opened Series

  /** A pair of columns for the two directions: `dm_plus`/`dm_minus`, or `di_plus`/`di_minus`. */
  datatype PlusMinus = PlusMinus(plus: Column, minus: Column)

  /** What `calculate` returns, in its order. */
  datatype Indicators = Indicators(adx: Column, diPlus: Column, diMinus: Column)

  /** The constructor's default `period`. */
  const DefaultPeriod: nat := 14

  /** `x.where(cond, 0)` at one cell: keep `x` where `cond` holds, else 0. */
  function Where(x: Option<real>, cond: bool): (r: Option<real>)
    ensures cond ==> r == x
    ensures !cond ==> r == Some(0.0)
  {
    if cond then x else Some(0.0)
  }

  /** Upward move of the high at row `i >= 1`. */
  function Up(bars: seq<Bar>, i: nat): real
    requires 1 <= i < |bars|
  {
    bars[i].high - bars[i - 1].high
  }

  /** Downward move of the low at row `i >= 1`. */
  function Down(bars: seq<Bar>, i: nat): real
    requires 1 <= i < |bars|
  {
    bars[i - 1].low - bars[i].low
  }

  /** Row `i` of `high - high.shift(1)`: NaN on the first row. */
  function RawPlus(bars: seq<Bar>, i: nat): (r: Option<real>)
    requires i < |bars|
    ensures r.None? <==> i == 0
    ensures i > 0 ==> r == Some(Up(bars, i))
  {
    Sub(Some(bars[i].high), if i == 0 then None else Some(bars[i - 1].high))
  }

  /** Row `i` of `low.shift(1) - low`: NaN on the first row. */
  function RawMinus(bars: seq<Bar>, i: nat): (r: Option<real>)
    requires i < |bars|
    ensures r.None? <==> i == 0
    ensures i > 0 ==> r == Some(Down(bars, i))
  {
    Sub(if i == 0 then None else Some(bars[i - 1].low), Some(bars[i].low))
  }

  /** Row `i` of the filtered `dm_plus`: kept where it beats the raw `dm_minus`
      and is positive. The comparisons with the NaN of row 0 are false, so row 0 is 0. */
  function PlusAt(bars: seq<Bar>, i: nat): (p: Option<real>)
    requires i < |bars|
    ensures p.Some? && p.value >= 0.0
    ensures i == 0 ==> p.value == 0.0
    ensures i > 0 ==> (p.value != 0.0 <==> Up(bars, i) > Down(bars, i) && Up(bars, i) > 0.0)
    ensures i > 0 && p.value != 0.0 ==> p.value == Up(bars, i)
  {
    var rawPlus, rawMinus := RawPlus(bars, i), RawMinus(bars, i);
    Where(rawPlus, Gt(rawPlus, rawMinus) && Gt(rawPlus, Some(0.0)))
  }

  /** Row `i` of the filtered `dm_minus`: kept where it beats the FILTERED
      `dm_plus` and is positive. On a positive tie `dm_plus` is already 0, so
      the downward move is kept. */
  function MinusAt(bars: seq<Bar>, i: nat): (m: Option<real>)
    requires i < |bars|
    ensures m.Some? && m.value >= 0.0
    ensures i == 0 ==> m.value == 0.0
    ensures i > 0 ==> (m.value != 0.0 <==> Down(bars, i) > 0.0 && Down(bars, i) >= Up(bars, i))
    ensures i > 0 && m.value != 0.0 ==> m.value == Down(bars, i)
    ensures m.value == 0.0 || PlusAt(bars, i).value == 0.0
  {
    var rawMinus := RawMinus(bars, i);
    Where(rawMinus, Gt(rawMinus, PlusAt(bars, i)) && Gt(rawMinus, Some(0.0)))
  }

  /** The filtered directional-movement columns: both non-negative, at most
      one of them non-zero on each row, both 0 on the first row. */
  function DirectionalMovements(bars: seq<Bar>): (dm: PlusMinus)
    ensures |dm.plus| == |bars| && |dm.minus| == |bars|
    ensures forall i :: 0 <= i < |bars| ==> dm.plus[i] == PlusAt(bars, i) && dm.minus[i] == MinusAt(bars, i)
    ensures forall i :: 0 <= i < |bars| ==>
              && dm.plus[i].Some? && dm.plus[i].value >= 0.0
              && dm.minus[i].Some? && dm.minus[i].value >= 0.0
              && (dm.plus[i].value == 0.0 || dm.minus[i].value == 0.0)
    ensures |bars| > 0 ==> dm.plus[0] == Some(0.0) && dm.minus[0] == Some(0.0)
  {
    PlusMinus(seq(|bars|, i requires 0 <= i < |bars| => PlusAt(bars, i)),
              seq(|bars|, i requires 0 <= i < |bars| => MinusAt(bars, i)))
  }

  /** On a positive tie `dm_plus` becomes 0 and `dm_minus` keeps its raw value. */
  lemma TieKeepsDownwardMove(bars: seq<Bar>, i: nat)
    requires 1 <= i < |bars| && Up(bars, i) == Down(bars, i) > 0.0
    ensures PlusAt(bars, i) == Some(0.0) && MinusAt(bars, i) == Some(Down(bars, i))
  {
  }

  /** `100 * (mean / atr)` at one cell: it has the sign of the ATR when the
      mean movement is non-negative. */
  function IndicatorCell(mean: Option<real>, atr: Option<real>): (d: Option<real>)
    ensures d.Some? <==> mean.Some? && atr.Some? && atr.value != 0.0
    ensures d.Some? && mean.value >= 0.0 ==>
              (atr.value > 0.0 ==> d.value >= 0.0) && (atr.value < 0.0 ==> d.value <= 0.0)
    ensures d.Some? ==> d.value * atr.value == 100.0 * mean.value
  {
    Mul(Some(100.0), Div(mean, atr))
  }

  /** `100 * (dm.rolling(period).mean() / atr)` cell by cell. */
  function DirectionalIndicator(dmMean: Column, atr: Column): (di: Column)
    requires |dmMean| == |atr|
    ensures |di| == |atr|
    ensures forall i :: 0 <= i < |atr| ==> di[i] == IndicatorCell(dmMean[i], atr[i])
  {
    seq(|atr|, i requires 0 <= i < |atr| => IndicatorCell(dmMean[i], atr[i]))
  }

  /** `100 * abs(di_plus - di_minus) / (di_plus + di_minus)` cell by cell. */
  function DirectionalIndex(diPlus: Column, diMinus: Column): (dx: Column)
    requires |diPlus| == |diMinus|
    ensures |dx| == |diPlus|
    ensures forall i :: 0 <= i < |diPlus| ==>
              (dx[i].Some? <==> diPlus[i].Some? && diMinus[i].Some? && diPlus[i].value + diMinus[i].value != 0.0)
    ensures forall i :: 0 <= i < |diPlus| && dx[i].Some? && diPlus[i].value >= 0.0 && diMinus[i].value >= 0.0 ==>
              0.0 <= dx[i].value <= 100.0
  {
    seq(|diPlus|, i requires 0 <= i < |diPlus| => DxAt(diPlus[i], diMinus[i]))
  }

  function DxAt(p: Option<real>, m: Option<real>): (d: Option<real>)
    ensures d.Some? <==> p.Some? && m.Some? && p.value + m.value != 0.0
    ensures d.Some? && p.value >= 0.0 && m.value >= 0.0 ==> 0.0 <= d.value <= 100.0
    ensures d.Some? ==> d.value * (p.value + m.value) == 100.0 * Abs(p.value - m.value)
  {
    var d := Div(Mul(Some(100.0), AbsOpt(Sub(p, m))), Add(p, m));
    assert d.Some? ==> d.value * (p.value + m.value) == 100.0 * Abs(p.value - m.value) &&
                       (p.value >= 0.0 && m.value >= 0.0 ==> 0.0 <= d.value <= 100.0) by {
      if d.Some? {
        DxValue(p.value, m.value);
      }
    }
    d
  }

  /** The arithmetic behind one DX cell. */
  lemma DxValue(p: real, m: real)
    requires p + m != 0.0
    ensures var q := 100.0 * Abs(p - m) / (p + m);
            && q * (p + m) == 100.0 * Abs(p - m)
            && (p >= 0.0 && m >= 0.0 ==> 0.0 <= q <= 100.0)
  {
    var a, s := Abs(p - m), p + m;
    QuotientTimesDenominator(100.0 * a, s);
    if p >= 0.0 && m >= 0.0 {
      assert 0.0 <= a <= s;
      QuotientBounds(100.0 * a, s, 0.0, 100.0);
    }
  }

  /** DI+ and DI-: `100 * (dm.rolling(period).mean() / atr)` for each direction. */
  function DirectionalIndicators(bars: seq<Bar>, period: nat): (di: PlusMinus)
    ensures |di.plus| == |bars| && |di.minus| == |bars|
    ensures forall i :: 0 <= i < |bars| ==>
              var atr := Atr(bars, period);
              && (di.plus[i].Some? <==> 1 <= period <= i + 1 && atr[i] != Some(0.0))
              && (di.minus[i].Some? <==> 1 <= period <= i + 1 && atr[i] != Some(0.0))
    ensures forall i :: 0 <= i < |bars| && Gt(Atr(bars, period)[i], Some(0.0)) ==>
              di.plus[i].value >= 0.0 && di.minus[i].value >= 0.0
    ensures forall i :: 0 <= i < |bars| && Lt(Atr(bars, period)[i], Some(0.0)) ==>
              di.plus[i].value <= 0.0 && di.minus[i].value <= 0.0
  {
    var atr := Atr(bars, period);
    var dm := DirectionalMovements(bars);
    RollingMeanOfDefined(dm.plus, period);
    RollingMeanOfDefined(dm.minus, period);
    RollingMeanAtLeast(dm.plus, period, 0.0);
    RollingMeanAtLeast(dm.minus, period, 0.0);
    PlusMinus(DirectionalIndicator(RollingMean(dm.plus, period), atr),
              DirectionalIndicator(RollingMean(dm.minus, period), atr))
  }

  /** DX: `100 * abs(di_plus - di_minus) / (di_plus + di_minus)`, undefined
      wherever a DI is, so through the first `period - 1` rows. */
  function Dx(bars: seq<Bar>, period: nat): (dx: Column)
    ensures |dx| == |bars|
    ensures forall i :: 0 <= i < |bars| && (period == 0 || i + 1 < period) ==> dx[i].None?
  {
    var di := DirectionalIndicators(bars, period);
    DirectionalIndex(di.plus, di.minus)
  }

  /** `calculate`: ADX, DI+ and DI- over `period`. ADX is the rolling mean of
      DX, whose first defined row is `period - 1`, so ADX is undefined through
      row `2 * period - 3`. */
  function Calculate(bars: seq<Bar>, period: nat): (r: Indicators)
    ensures |r.adx| == |bars| && |r.diPlus| == |bars| && |r.diMinus| == |bars|
    ensures var di := DirectionalIndicators(bars, period); r.diPlus == di.plus && r.diMinus == di.minus
    ensures forall i :: 0 <= i < |bars| && (period == 0 || i + 2 < 2 * period) ==> r.adx[i].None?
    ensures forall i :: 0 <= i < |bars| ==>
              (r.adx[i].Some? <==> 1 <= period <= i + 1 && forall k :: i + 1 - period <= k <= i ==> Dx(bars, period)[k].Some?)
  {
    var di := DirectionalIndicators(bars, period);
    var dx := Dx(bars, period);
    var adx := RollingMean(dx, period);
    assert forall i :: 0 <= i < |bars| && 1 <= period && i + 2 < 2 * period ==> adx[i].None? by {
      forall i | 0 <= i < |bars| && 1 <= period && i + 2 < 2 * period
        ensures adx[i].None?
      {
        if period <= i + 1 {
          assert !dx[i + 1 - period].Some?;
        }
      }
    }
    Indicators(adx, di.plus, di.minus)
  }

  /** With the default period of 14, DI+ and DI- have no value on the first 13
      rows and ADX none on the first 26. */
  lemma DefaultWarmUp(bars: seq<Bar>)
    ensures var r := Calculate(bars, DefaultPeriod);
            && (forall i :: 0 <= i < |bars| && i < 13 ==> r.diPlus[i].None? && r.diMinus[i].None?)
            && (forall i :: 0 <= i < |bars| && i < 26 ==> r.adx[i].None?)
  {
  }

  /** Both indicators share the ATR denominator and have non-negative
      numerators, so where their sum is positive DX lies in [0, 100]. */
  lemma DxBounded(bars: seq<Bar>, period: nat)
    ensures var di := DirectionalIndicators(bars, period);
            forall i :: 0 <= i < |bars| && di.plus[i].Some? && di.minus[i].Some? &&
                        di.plus[i].value + di.minus[i].value > 0.0 ==>
              Dx(bars, period)[i].Some? && 0.0 <= Dx(bars, period)[i].value <= 100.0
  {
  }

  /** With well-formed bars, the one non-zero directional movement of a row
      never exceeds that row's True Range. */
  lemma MovementWithinTrueRange(bars: seq<Bar>)
    requires AllWellFormed(bars)
    ensures var dm, tr := DirectionalMovements(bars), TrueRange(bars);
            forall i :: 0 <= i < |bars| ==> dm.plus[i].value + dm.minus[i].value <= tr[i].value
  {
  }

  /** Two percentages of one positive denominator whose numerators sum to at
      most that denominator lie in [0, 100] together. */
  lemma SharedDenominator(mp: real, mm: real, a: real)
    requires a > 0.0 && 0.0 <= mp && 0.0 <= mm && mp + mm <= a
    ensures 0.0 <= 100.0 * (mp / a) && 0.0 <= 100.0 * (mm / a)
    ensures 100.0 * (mp / a) + 100.0 * (mm / a) <= 100.0
  {
  }

  /** With well-formed bars, the two mean movements of a complete window are
      non-negative and together at most the ATR of that window. */
  lemma MeanMovementWithinAtr(bars: seq<Bar>, period: nat, i: nat)
    requires AllWellFormed(bars) && i < |bars| && 1 <= period <= i + 1
    ensures var dm, atr := DirectionalMovements(bars), Atr(bars, period);
            var mp, mm := RollingMean(dm.plus, period)[i], RollingMean(dm.minus, period)[i];
            && mp.Some? && mm.Some? && atr[i].Some?
            && 0.0 <= mp.value && 0.0 <= mm.value && mp.value + mm.value <= atr[i].value
  {
    MeanMovementsSumWithinAtr(bars, period, i);
    MeanMovementsNonNegative(bars, period, i);
  }

  /** The two mean movements of a warmed-up row sum to at most its ATR. */
  lemma MeanMovementsSumWithinAtr(bars: seq<Bar>, period: nat, i: nat)
    requires AllWellFormed(bars) && i < |bars| && 1 <= period <= i + 1
    ensures var dm, atr := DirectionalMovements(bars), Atr(bars, period);
            var mp, mm := RollingMean(dm.plus, period)[i], RollingMean(dm.minus, period)[i];
            && mp.Some? && mm.Some? && atr[i].Some? && mp.value + mm.value <= atr[i].value
  {
    var dm, tr := DirectionalMovements(bars), TrueRange(bars);
    assert Atr(bars, period) == RollingMean(tr, period);
    MovementWithinTrueRange(bars);
    RollingMeanPointwiseLe(dm.plus, dm.minus, tr, period, i);
  }

  /** Defined mean movements are non-negative. */
  lemma MeanMovementsNonNegative(bars: seq<Bar>, period: nat, i: nat)
    requires i < |bars|
    ensures var dm := DirectionalMovements(bars);
            var mp, mm := RollingMean(dm.plus, period)[i], RollingMean(dm.minus, period)[i];
            (mp.Some? ==> 0.0 <= mp.value) && (mm.Some? ==> 0.0 <= mm.value)
  {
    var dm := DirectionalMovements(bars);
    RollingMeanAtLeast(dm.plus, period, 0.0);
    RollingMeanAtLeast(dm.minus, period, 0.0);
  }

  /** DI+ and DI- cells over one positive ATR whose mean movements sum to at
      most that ATR lie in [0, 100] together. */
  lemma IndicatorCellsBounded(mp: Option<real>, mm: Option<real>, atr: Option<real>)
    requires mp.Some? && mm.Some? && atr.Some? && atr.value > 0.0
    requires 0.0 <= mp.value && 0.0 <= mm.value && mp.value + mm.value <= atr.value
    ensures IndicatorCell(mp, atr).Some? && IndicatorCell(mm, atr).Some?
    ensures 0.0 <= IndicatorCell(mp, atr).value && 0.0 <= IndicatorCell(mm, atr).value
    ensures IndicatorCell(mp, atr).value + IndicatorCell(mm, atr).value <= 100.0
  {
    SharedDenominator(mp.value, mm.value, atr.value);
  }

  /** A defined DI cell is 100 times its mean movement over the ATR. */
  lemma IndicatorValueAt(bars: seq<Bar>, period: nat, i: nat)
    requires i < |bars| && DirectionalIndicators(bars, period).plus[i].Some?
    ensures var dm, atr, di := DirectionalMovements(bars), Atr(bars, period), DirectionalIndicators(bars, period);
            && di.plus[i] == IndicatorCell(RollingMean(dm.plus, period)[i], atr[i])
            && di.minus[i] == IndicatorCell(RollingMean(dm.minus, period)[i], atr[i])
  {
  }

  /** One row of IndicatorsBounded. */
  lemma IndicatorsBoundedAt(bars: seq<Bar>, period: nat, i: nat)
    requires AllWellFormed(bars) && i < |bars|
    requires DirectionalIndicators(bars, period).plus[i].Some?
    ensures var di := DirectionalIndicators(bars, period);
            && di.minus[i].Some?
            && 0.0 <= di.plus[i].value && 0.0 <= di.minus[i].value
            && di.plus[i].value + di.minus[i].value <= 100.0
  {
    var dm, atr := DirectionalMovements(bars), Atr(bars, period);
    var plusMean, minusMean := RollingMean(dm.plus, period), RollingMean(dm.minus, period);
    IndicatorValueAt(bars, period, i);
    assert 1 <= period <= i + 1;
    MeanMovementWithinAtr(bars, period, i);
    IndicatorCellsBounded(plusMean[i], minusMean[i], atr[i]);
  }

  /** With well-formed bars, wherever DI+ and DI- are defined both are
      non-negative and together they are at most 100. */
  lemma IndicatorsBounded(bars: seq<Bar>, period: nat)
    requires AllWellFormed(bars)
    ensures var di := DirectionalIndicators(bars, period);
            forall i :: 0 <= i < |bars| && di.plus[i].Some? ==>
              && di.minus[i].Some?
              && 0.0 <= di.plus[i].value && 0.0 <= di.minus[i].value
              && di.plus[i].value + di.minus[i].value <= 100.0
  {
    var di := DirectionalIndicators(bars, period);
    forall i | 0 <= i < |bars| && di.plus[i].Some?
      ensures && di.minus[i].Some?
              && 0.0 <= di.plus[i].value && 0.0 <= di.minus[i].value
              && di.plus[i].value + di.minus[i].value <= 100.0
    {
      IndicatorsBoundedAt(bars, period, i);
    }
  }

  /** With well-formed bars, every defined ADX lies in [0, 100]. */
  lemma AdxBounded(bars: seq<Bar>, period: nat)
    requires AllWellFormed(bars)
    ensures var adx := Calculate(bars, period).adx;
            forall i :: 0 <= i < |bars| && adx[i].Some? ==> 0.0 <= adx[i].value <= 100.0
  {
    var dx := Dx(bars, period);
    var di := DirectionalIndicators(bars, period);
    IndicatorsBounded(bars, period);
    assert forall k :: 0 <= k < |bars| && dx[k].Some? ==> 0.0 <= dx[k].value <= 100.0 by {
      forall k | 0 <= k < |bars| && dx[k].Some?
        ensures 0.0 <= dx[k].value <= 100.0
      {
        assert di.plus[k].Some? && di.minus[k].Some?;
      }
    }
    RollingMeanAtLeast(dx, period, 0.0);
    RollingMeanAtMost(dx, period, 100.0);
  }

  /** With well-formed bars, a zero ATR comes with zero mean movement in both
      directions, so a division by zero in DI+ or DI- is always 0 / 0 (NaN in
      pandas) and never a signed infinity. */
  lemma ZeroAtrIsZeroOverZero(bars: seq<Bar>, period: nat, i: nat)
    requires AllWellFormed(bars) && i < |bars|
    requires Atr(bars, period)[i] == Some(0.0)
    ensures var dm := DirectionalMovements(bars);
            RollingMean(dm.plus, period)[i] == Some(0.0) && RollingMean(dm.minus, period)[i] == Some(0.0)
  {
    var dm := DirectionalMovements(bars);
    assert 1 <= period <= i + 1;
    MeanMovementWithinAtr(bars, period, i);
    var mp, mm := RollingMean(dm.plus, period)[i], RollingMean(dm.minus, period)[i];
    NoRoomBelowZero(mp, mm, Atr(bars, period)[i]);
  }

  /** Two non-negative cells whose sum is at most a zero cell are both zero. */
  lemma NoRoomBelowZero(a: Option<real>, b: Option<real>, z: Option<real>)
    requires a.Some? && b.Some? && z == Some(0.0)
    requires 0.0 <= a.value && 0.0 <= b.value && a.value + b.value <= z.value
    ensures a == Some(0.0) && b == Some(0.0)
  {
  }
}
