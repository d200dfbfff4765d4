/**
 * The signals `run_scanner` derives from one ticker's
 * daily series (main.py, lines 43-60). Prices and volumes are exact reals.
 */
module Signals {

  /** One row of the downloaded frame: its `Close` and `Volume` columns. */
  datatype Bar = Bar(close: real, volume: real)

  /** Window of the short moving average (`rolling(window=50)`). */
  const ShortWindow: nat := 50
  /** Window of the long moving average (`rolling(window=150)`). */
  const LongWindow: nat := 150
  /** Window of the average volume (`rolling(window=20)`). */
  const VolumeWindow: nat := 20
  /** The "six months ago" close is read at `iloc[-126]`: 125 bars before the latest one. */
  const HalfYearOffset: nat := 126
  /** Series shorter than this are skipped before any signal is computed. */
  const MinBars: nat := 151

  function Closes(bars: seq<Bar>): seq<real>
  {
    seq(|bars|, i requires 0 <= i < |bars| => bars[i].close)
  }

  function Volumes(bars: seq<Bar>): seq<real>
  {
    seq(|bars|, i requires 0 <= i < |bars| => bars[i].volume)
  }

  function Sum(xs: seq<real>): real
  {
    if xs == [] then 0.0 else xs[0] + Sum(xs[1..])
  }

  /** The last `w` entries of `xs`. */
  function Trailing(xs: seq<real>, w: nat): seq<real>
    requires w <= |xs|
  {
    xs[|xs| - w..]
  }

  /** The last entry of a pandas `rolling(window=w).mean()` column: the simple mean of the last `w` values. */
  function TrailingMean(xs: seq<real>, w: nat): (m: real)
    requires 0 < w <= |xs|
    ensures m * w as real == Sum(xs[|xs| - w..])
  {
    Sum(Trailing(xs, w)) / w as real
  }

  function Abs(x: real): real
  {
    if x < 0.0 then -x else x
  }

  /** Percentage distance of `price` from a moving average, `abs((price - ma) / ma) * 100`. */
  function Distance(price: real, ma: real): (d: real)
    requires ma != 0.0
    ensures d >= 0.0
    ensures d * Abs(ma) == Abs(price - ma) * 100.0
  {
    Abs((price - ma) / ma) * 100.0
  }

  /** Percentage change from `base` to `price`, `((price - base) / base) * 100`. */
  function Change(price: real, base: real): (c: real)
    requires base != 0.0
    ensures c * base == (price - base) * 100.0
  {
    ((price - base) / base) * 100.0
  }

  /**
   * RVOL: the latest volume over the 20-bar average volume, and 0 when that
   * average is 0; the division is guarded, so it never fails.
   */
  function RelativeVolume(volumes: seq<real>): (r: real)
    requires |volumes| >= VolumeWindow
    ensures TrailingMean(volumes, VolumeWindow) == 0.0 ==> r == 0.0
    ensures TrailingMean(volumes, VolumeWindow) != 0.0 ==>
              r * TrailingMean(volumes, VolumeWindow) == volumes[|volumes| - 1]
  {
    var avg := TrailingMean(volumes, VolumeWindow);
    if avg != 0.0 then volumes[|volumes| - 1] / avg else 0.0
  }

  /** The values `run_scanner` binds for one ticker before applying its rule. */
  datatype Snapshot = Snapshot(
    price: real,          // latest close
    ma50: real,           // mean of the last 50 closes
    ma150: real,          // mean of the last 150 closes
    avgVolume: real,      // mean of the last 20 volumes
    rvol: real,           // relative volume
    halfYearClose: real   // the close at iloc[-126]
  )

  function ComputeSignals(bars: seq<Bar>): (s: Snapshot)
    requires |bars| >= MinBars
    ensures s.price == bars[|bars| - 1].close
    ensures s.halfYearClose == bars[|bars| - 1 - 125].close
    ensures s.ma50 * ShortWindow as real == Sum(Closes(bars[|bars| - ShortWindow..]))
    ensures s.ma150 * LongWindow as real == Sum(Closes(bars[|bars| - LongWindow..]))
    ensures s.avgVolume * VolumeWindow as real == Sum(Volumes(bars[|bars| - VolumeWindow..]))
    ensures s.avgVolume == 0.0 ==> s.rvol == 0.0
    ensures s.avgVolume != 0.0 ==> s.rvol * s.avgVolume == bars[|bars| - 1].volume
  {
    ClosesOfSuffix(bars, ShortWindow);
    ClosesOfSuffix(bars, LongWindow);
    VolumesOfSuffix(bars, VolumeWindow);
    var closes := Closes(bars);
    var volumes := Volumes(bars);
    Snapshot(
      closes[|closes| - 1],
      TrailingMean(closes, ShortWindow),
      TrailingMean(closes, LongWindow),
      TrailingMean(volumes, VolumeWindow),
      RelativeVolume(volumes),
      closes[|closes| - HalfYearOffset])
  }

  lemma ClosesOfSuffix(bars: seq<Bar>, w: nat)
    requires w <= |bars|
    ensures Trailing(Closes(bars), w) == Closes(bars[|bars| - w..])
  {
  }

  lemma VolumesOfSuffix(bars: seq<Bar>, w: nat)
    requires w <= |bars|
    ensures Trailing(Volumes(bars), w) == Volumes(bars[|bars| - w..])
  {
  }

  // ---------------------------------------------------------------------
  // Properties of the moving averages

  /** A sum of values all within [lo, hi] lies within [n*lo, n*hi]. */
  lemma {:induction false} SumBounds(xs: seq<real>, lo: real, hi: real)
    requires forall i :: 0 <= i < |xs| ==> lo <= xs[i] <= hi
    ensures |xs| as real * lo <= Sum(xs) <= |xs| as real * hi
  {
    if xs != [] {
      SumBounds(xs[1..], lo, hi);
      assert |xs| as real * lo == lo + |xs[1..]| as real * lo;
      assert |xs| as real * hi == hi + |xs[1..]| as real * hi;
    }
  }

  /** A sum of positive values over a non-empty sequence is positive. */
  lemma {:induction false} SumPositive(xs: seq<real>)
    requires xs != []
    requires forall i :: 0 <= i < |xs| ==> xs[i] > 0.0
    ensures Sum(xs) > 0.0
  {
    if |xs| > 1 {
      SumPositive(xs[1..]);
    }
  }

  /** A sum of non-negative values is non-negative. */
  lemma {:induction false} SumNonNegative(xs: seq<real>)
    requires forall i :: 0 <= i < |xs| ==> xs[i] >= 0.0
    ensures Sum(xs) >= 0.0
  {
    if xs != [] {
      SumNonNegative(xs[1..]);
    }
  }

  /** A simple moving average lies between the smallest and the largest value of its window. */
  lemma TrailingMeanBounds(xs: seq<real>, w: nat, lo: real, hi: real)
    requires 0 < w <= |xs|
    requires forall i :: |xs| - w <= i < |xs| ==> lo <= xs[i] <= hi
    ensures lo <= TrailingMean(xs, w) <= hi
  {
    var t := Trailing(xs, w);
    forall i | 0 <= i < |t| ensures lo <= t[i] <= hi {
      assert t[i] == xs[|xs| - w + i];
    }
    SumBounds(t, lo, hi);
    var n := w as real;
    var m := TrailingMean(xs, w);
    assert |t| as real == n;
    assert n * lo <= n * m <= n * hi;
    ScaleCancel(lo, m, n);
    ScaleCancel(m, hi, n);
  }

  /** Multiplying by a positive factor keeps the order of two reals. */
  lemma ScaleCancel(a: real, b: real, n: real)
    requires n > 0.0 && n * a <= n * b
    ensures a <= b
  {
    assert n * (b - a) >= 0.0;
  }

  /** A moving average over a window of positive values is positive, so it is never a zero divisor. */
  lemma TrailingMeanPositive(xs: seq<real>, w: nat)
    requires 0 < w <= |xs|
    requires forall i :: |xs| - w <= i < |xs| ==> xs[i] > 0.0
    ensures TrailingMean(xs, w) > 0.0
  {
    var t := Trailing(xs, w);
    forall i | 0 <= i < |t| ensures t[i] > 0.0 {
      assert t[i] == xs[|xs| - w + i];
    }
    SumPositive(t);
  }

  /** A moving average over a window of non-negative values is non-negative. */
  lemma TrailingMeanNonNegative(xs: seq<real>, w: nat)
    requires 0 < w <= |xs|
    requires forall i :: |xs| - w <= i < |xs| ==> xs[i] >= 0.0
    ensures TrailingMean(xs, w) >= 0.0
  {
    var t := Trailing(xs, w);
    forall i | 0 <= i < |t| ensures t[i] >= 0.0 {
      assert t[i] == xs[|xs| - w + i];
    }
    SumNonNegative(t);
  }

  // ---------------------------------------------------------------------
  // The percentage rules without division

  /** `abs((price - ma) / ma) * 100 < t` says exactly that `price` lies strictly within `t` percent of `ma`. */
  lemma DistanceBelow(price: real, ma: real, t: real)
    requires ma != 0.0
    ensures Distance(price, ma) < t <==> Abs(price - ma) * 100.0 < t * Abs(ma)
  {
  }

  /**
   * `((price - base) / base) * 100 < t` says that `price` lies below `base`
   * moved by `t` percent; for a negative base the inequality flips.
   */
  lemma ChangeBelow(price: real, base: real, t: real)
    requires base != 0.0
    ensures Change(price, base) < t <==>
              if base > 0.0 then (price - base) * 100.0 < t * base
              else (price - base) * 100.0 > t * base
  {
  }

  /** With non-negative volumes, RVOL is non-negative. */
  lemma RelativeVolumeNonNegative(volumes: seq<real>)
    requires |volumes| >= VolumeWindow
    requires forall i :: 0 <= i < |volumes| ==> volumes[i] >= 0.0
    ensures RelativeVolume(volumes) >= 0.0
  {
    var avg := TrailingMean(volumes, VolumeWindow);
    TrailingMeanNonNegative(volumes, VolumeWindow);
    if avg != 0.0 {
      var r := RelativeVolume(volumes);
      assert avg > 0.0 && r * avg == volumes[|volumes| - 1];
    }
  }

  // ---------------------------------------------------------------------
  // Which bars the signals read

  /** A window of `w` trailing values is determined by any longer trailing window. */
  lemma TrailingOfTrailing(xs: seq<real>, w: nat, n: nat)
    requires w <= n <= |xs|
    ensures Trailing(xs, w) == Trailing(Trailing(xs, n), w)
  {
  }

  /**
   * Every signal reads only the last 150 bars: two series of at least 151
   * bars that agree there give the same snapshot, however long or different
   * their older history is.
   */
  lemma SignalsReadOnlyLastBars(a: seq<Bar>, b: seq<Bar>)
    requires |a| >= MinBars && |b| >= MinBars
    requires a[|a| - LongWindow..] == b[|b| - LongWindow..]
    ensures ComputeSignals(a) == ComputeSignals(b)
  {
    var ca, cb := Closes(a), Closes(b);
    var va, vb := Volumes(a), Volumes(b);
    ClosesOfSuffix(a, LongWindow);
    ClosesOfSuffix(b, LongWindow);
    VolumesOfSuffix(a, LongWindow);
    VolumesOfSuffix(b, LongWindow);
    assert Trailing(ca, LongWindow) == Trailing(cb, LongWindow);
    assert Trailing(va, LongWindow) == Trailing(vb, LongWindow);
    TrailingOfTrailing(ca, ShortWindow, LongWindow);
    TrailingOfTrailing(cb, ShortWindow, LongWindow);
    TrailingOfTrailing(va, VolumeWindow, LongWindow);
    TrailingOfTrailing(vb, VolumeWindow, LongWindow);
    assert ca[|ca| - 1] == Trailing(ca, LongWindow)[LongWindow - 1];
    assert cb[|cb| - 1] == Trailing(cb, LongWindow)[LongWindow - 1];
    assert ca[|ca| - HalfYearOffset] == Trailing(ca, LongWindow)[LongWindow - HalfYearOffset];
    assert cb[|cb| - HalfYearOffset] == Trailing(cb, LongWindow)[LongWindow - HalfYearOffset];
    assert va[|va| - 1] == Trailing(va, LongWindow)[LongWindow - 1];
    assert vb[|vb| - 1] == Trailing(vb, LongWindow)[LongWindow - 1];
  }
}
