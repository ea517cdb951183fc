/**
 * The indicator engine of the NASDAQ chart page: simple moving average,
 * Bollinger bands, the standard-deviation fan and the z-score levels, all
 * computed from the close price `y[3]` of each candle.
 *
 * Prices are exact reals. `Math.sqrt` is the parameter `sqrt`; the lemmas that
 * need its properties ask for them (non-negative, squares back).
 */
module Indicators {

  /** One candle of the price series: `x` is the time in milliseconds and the
      four prices are the source's `y` array `[open, high, low, close]`. */
  datatype Candle = Candle(x: int, open: real, high: real, low: real, close: real)

  /** A derived point `{ x, y }` carrying one value. */
  datatype Level = Level(x: int, y: real)

  /** A fan point `{ x, y }` carrying the seven fan levels. */
  datatype FanPoint = FanPoint(x: int, y: seq<real>)

  /** What `calculateBollingerBands` returns. */
  datatype Bands = Bands(sma: seq<Level>, upperBand: seq<Level>, lowerBand: seq<Level>)

  /** What `calculateZScore` returns: `null` on no data, the undefined quotient of
      a zero standard deviation, or the two levels and the score. */
  datatype ZScore = NoData | ZeroDeviation | Score(positive: real, negative: real, zScore: real)

  /** The two heuristic percentages derived from a z-score. */
  datatype Probability = Probability(positive: real, negative: real)

  /** A square root that is zero at zero and positive on positive arguments. */
  ghost predicate ZeroOnlyAtZero(sqrt: real -> real)
  {
    sqrt(0.0) == 0.0 && forall v :: 0.0 < v ==> 0.0 < sqrt(v)
  }

  /** A square-root function in the mathematical sense. */
  ghost predicate IsSqrt(sqrt: real -> real)
  {
    forall v :: 0.0 <= v ==> 0.0 <= sqrt(v) && sqrt(v) * sqrt(v) == v
  }

  // ---------------------------------------------------------------------------
  // Sums over closes

  /** The sum of the closes, folded from the left from 0 as `reduce` does. */
  function SumCloses(data: seq<Candle>): real
  {
    if data == [] then 0.0 else SumCloses(data[..|data| - 1]) + data[|data| - 1].close
  }

  /** A product, kept as a function of two arguments so that the sign rule
      for products applies to a square as to any other product. */
  function Product(a: real, b: real): real
  {
    a * b
  }

  /** `Math.pow(v, 2)`. */
  function Square(v: real): real
  {
    Product(v, v)
  }

  /** The sum of `Math.pow(close - mean, 2)` over the series. */
  function SquaredDeviations(data: seq<Candle>, mean: real): real
  {
    if data == [] then 0.0
    else SquaredDeviations(data[..|data| - 1], mean) + Square(data[|data| - 1].close - mean)
  }

  lemma ProductOfPositives(a: real, b: real)
    requires a > 0.0 && b > 0.0
    ensures Product(a, b) > 0.0
  {
  }

  lemma ProductOfNegatives(a: real, b: real)
    requires a < 0.0 && b < 0.0
    ensures Product(a, b) > 0.0
  {
  }

  /** The square of a non-zero number is positive. */
  lemma SquarePositive(d: real)
    requires d != 0.0
    ensures Square(d) > 0.0
  {
    if d > 0.0 {
      ProductOfPositives(d, d);
    } else {
      ProductOfNegatives(d, d);
    }
  }

  lemma SquareNonNegative(d: real)
    ensures Square(d) >= 0.0
  {
    if d != 0.0 {
      SquarePositive(d);
    }
  }

  /** Scaling a quotient's numerator scales the quotient. */
  lemma DivScale(c: real, s: real, t: real, w: real)
    requires w > 0.0 && t == c * s
    ensures t / w == c * (s / w)
  {
  }

  lemma {:induction false} SquaredDeviationsNonNegative(data: seq<Candle>, mean: real)
    ensures SquaredDeviations(data, mean) >= 0.0
  {
    if data != [] {
      SquaredDeviationsNonNegative(data[..|data| - 1], mean);
      SquareNonNegative(data[|data| - 1].close - mean);
    }
  }

  /** One close away from the mean makes the sum of squared deviations positive. */
  lemma {:induction false} SquaredDeviationsPositive(data: seq<Candle>, mean: real, i: nat)
    requires i < |data| && data[i].close != mean
    ensures SquaredDeviations(data, mean) > 0.0
  {
    var init := data[..|data| - 1];
    SquaredDeviationsNonNegative(init, mean);
    if i < |data| - 1 {
      assert init[i] == data[i];
      SquaredDeviationsPositive(init, mean, i);
      SquareNonNegative(data[|data| - 1].close - mean);
    } else {
      SquarePositive(data[|data| - 1].close - mean);
    }
  }

  /** Closes that all equal the mean have no deviation. */
  lemma {:induction false} SquaredDeviationsOfMean(data: seq<Candle>, mean: real)
    requires forall i :: 0 <= i < |data| ==> data[i].close == mean
    ensures SquaredDeviations(data, mean) == 0.0
  {
    if data != [] {
      var init := data[..|data| - 1];
      assert forall i :: 0 <= i < |init| ==> init[i].close == mean by {
        forall i | 0 <= i < |init| ensures init[i].close == mean { assert init[i] == data[i]; }
      }
      SquaredDeviationsOfMean(init, mean);
      assert data[|data| - 1].close - mean == 0.0;
    }
  }

  /** A series whose closes all equal `c` sums to `n * c`. */
  lemma {:induction false} SumConstant(data: seq<Candle>, c: real)
    requires forall i :: 0 <= i < |data| ==> data[i].close == c
    ensures SumCloses(data) == (|data| as real) * c
  {
    if data != [] {
      var init := data[..|data| - 1];
      assert forall i :: 0 <= i < |init| ==> init[i].close == c by {
        forall i | 0 <= i < |init| ensures init[i].close == c { assert init[i] == data[i]; }
      }
      SumConstant(init, c);
    }
  }

  // ---------------------------------------------------------------------------
  // Simple moving average (NASDAQStockChart.js:343-350)

  /** How many full windows of `w` points a series of `n` points has. */
  function WindowCount(n: nat, w: int): nat
    requires w >= 1
  {
    if w <= n then n - w + 1 else 0
  }

  /** The mean close of the `w` points starting at `lo`. */
  function WindowMean(data: seq<Candle>, lo: nat, w: int): real
    requires w >= 1 && lo + w <= |data|
  {
    SumCloses(data[lo..lo + w]) / (w as real)
  }

  /** The moving-average series: one point per full trailing window, stamped
      with the time of the window's last point. */
  function Sma(data: seq<Candle>, w: int): seq<Level>
    requires w >= 1
  {
    var n := WindowCount(|data|, w);
    seq(n, k requires 0 <= k < n => Level(data[k + w - 1].x, WindowMean(data, k, w)))
  }

  /** The loop of `calculateSMA`: one pass over the window ends `i`. */
  method CalculateSMA(data: seq<Candle>, windowSize: int) returns (sma: seq<Level>)
    requires windowSize >= 1
    ensures sma == Sma(data, windowSize)
  {
    sma := [];
    var i := windowSize - 1;
    while i < |data|
      invariant windowSize - 1 <= i
      invariant i <= |data| || sma == []
      invariant |sma| == i - (windowSize - 1)
      invariant forall k :: 0 <= k < |sma| ==>
        sma[k] == Level(data[k + windowSize - 1].x, WindowMean(data, k, windowSize))
    {
      var sum := SumCloses(data[i + 1 - windowSize..i + 1]);
      sma := sma + [Level(data[i].x, sum / (windowSize as real))];
      i := i + 1;
    }
  }

  /** Output length: `n - w + 1` points when the series holds a full window, none otherwise;
      point `k` is stamped with `data[k + w - 1].x` and `w` times its value is the sum of
      the closes of `data[k..k + w]`. */
  lemma SmaShape(data: seq<Candle>, w: int)
    requires w >= 1
    ensures w <= |data| ==> |Sma(data, w)| == |data| - w + 1
    ensures w > |data| ==> Sma(data, w) == []
    ensures forall k :: 0 <= k < |Sma(data, w)| ==>
      k + w <= |data| && Sma(data, w)[k].x == data[k + w - 1].x &&
      Sma(data, w)[k].y * (w as real) == SumCloses(data[k..k + w])
  {
  }

  /** The window is trailing: point `k` depends only on the points up to `k + w - 1`,
      so appending or changing later points never changes it. */
  lemma SmaUsesOnlyPast(data: seq<Candle>, other: seq<Candle>, w: int, k: nat)
    requires w >= 1 && k + w <= |data| && k + w <= |other|
    requires data[..k + w] == other[..k + w]
    ensures k < |Sma(data, w)| && k < |Sma(other, w)|
    ensures Sma(data, w)[k] == Sma(other, w)[k]
  {
    assert data[k..k + w] == data[..k + w][k..];
    assert other[k..k + w] == other[..k + w][k..];
    assert data[k + w - 1] == data[..k + w][k + w - 1];
    assert other[k + w - 1] == other[..k + w][k + w - 1];
  }

  /** Every close multiplied by `c`. */
  function ScaleCloses(data: seq<Candle>, c: real): (r: seq<Candle>)
    ensures |r| == |data|
    ensures forall i :: 0 <= i < |r| ==> r[i].close == c * data[i].close && r[i].x == data[i].x
  {
    seq(|data|, i requires 0 <= i < |data| => data[i].(close := c * data[i].close))
  }

  /** Two series whose closes differ by the factor `c` have sums differing by `c`. */
  lemma {:induction false} SumScale(data: seq<Candle>, scaled: seq<Candle>, c: real)
    requires |scaled| == |data|
    requires forall i :: 0 <= i < |data| ==> scaled[i].close == c * data[i].close
    ensures SumCloses(scaled) == c * SumCloses(data)
  {
    if data != [] {
      var n := |data| - 1;
      assert forall i :: 0 <= i < n ==> scaled[..n][i].close == c * data[..n][i].close by {
        forall i | 0 <= i < n ensures scaled[..n][i].close == c * data[..n][i].close {
          assert scaled[..n][i] == scaled[i] && data[..n][i] == data[i];
        }
      }
      SumScale(data[..n], scaled[..n], c);
    }
  }

  /** The sum over a window of the scaled series is the scaled sum over that window. */
  lemma WindowSumScale(data: seq<Candle>, c: real, lo: nat, w: nat)
    requires lo + w <= |data|
    ensures SumCloses(ScaleCloses(data, c)[lo..lo + w]) == c * SumCloses(data[lo..lo + w])
  {
    var scaled := ScaleCloses(data, c);
    var window, scaledWindow := data[lo..lo + w], scaled[lo..lo + w];
    forall i | 0 <= i < w
      ensures scaledWindow[i].close == c * window[i].close
    {
      assert scaledWindow[i] == scaled[lo + i] && window[i] == data[lo + i];
    }
    SumScale(window, scaledWindow, c);
  }

  /** The mean of a window of the scaled series is the scaled mean. */
  lemma WindowMeanScale(data: seq<Candle>, c: real, lo: nat, w: int)
    requires w >= 1 && lo + w <= |data|
    ensures WindowMean(ScaleCloses(data, c), lo, w) == c * WindowMean(data, lo, w)
  {
    WindowSumScale(data, c, lo, w);
    DivScale(c, SumCloses(data[lo..lo + w]), SumCloses(ScaleCloses(data, c)[lo..lo + w]), w as real);
  }

  /** The moving average is linear: scaling every close scales every average. */
  lemma SmaScale(data: seq<Candle>, w: int, c: real, k: nat)
    requires w >= 1 && k < WindowCount(|data|, w)
    ensures |Sma(ScaleCloses(data, c), w)| == |Sma(data, w)|
    ensures Sma(ScaleCloses(data, c), w)[k] == Level(Sma(data, w)[k].x, c * Sma(data, w)[k].y)
  {
    WindowMeanScale(data, c, k, w);
  }

  /** Strictly increasing timestamps in, strictly increasing timestamps out. */
  lemma SmaKeepsTimeOrder(data: seq<Candle>, w: int)
    requires w >= 1
    requires forall i, j :: 0 <= i < j < |data| ==> data[i].x < data[j].x
    ensures forall i, j :: 0 <= i < j < |Sma(data, w)| ==> Sma(data, w)[i].x < Sma(data, w)[j].x
  {
  }

  // ---------------------------------------------------------------------------
  // Bollinger bands (NASDAQStockChart.js:353-370)

  /** Population standard deviation of the window of `w` points starting at `lo`. */
  function WindowDeviation(data: seq<Candle>, lo: nat, w: int, sqrt: real -> real): real
    requires w >= 1 && lo + w <= |data|
  {
    sqrt(SquaredDeviations(data[lo..lo + w], WindowMean(data, lo, w)) / (w as real))
  }

  /** The upper band's point for the window starting at `lo`. */
  function UpperPoint(data: seq<Candle>, lo: nat, w: int, numStdDev: real, sqrt: real -> real): Level
    requires w >= 1 && lo + w <= |data|
  {
    Level(data[lo + w - 1].x, WindowMean(data, lo, w) + numStdDev * WindowDeviation(data, lo, w, sqrt))
  }

  /** The lower band's point for the window starting at `lo`. */
  function LowerPoint(data: seq<Candle>, lo: nat, w: int, numStdDev: real, sqrt: real -> real): Level
    requires w >= 1 && lo + w <= |data|
  {
    Level(data[lo + w - 1].x, WindowMean(data, lo, w) - numStdDev * WindowDeviation(data, lo, w, sqrt))
  }

  /** The three band series, one point per full window. */
  function Bollinger(data: seq<Candle>, w: int, numStdDev: real, sqrt: real -> real): Bands
    requires w >= 1
  {
    var n := WindowCount(|data|, w);
    Bands(
      Sma(data, w),
      seq(n, k requires 0 <= k < n => UpperPoint(data, k, w, numStdDev, sqrt)),
      seq(n, k requires 0 <= k < n => LowerPoint(data, k, w, numStdDev, sqrt)))
  }

  /** The points the loop appends for the window ending at `i` are the band points
      of that window. */
  lemma BandPointsAt(data: seq<Candle>, w: int, numStdDev: real, sqrt: real -> real, i: int,
                     mean: real, stdDev: real)
    requires w >= 1 && w - 1 <= i < |data|
    requires mean == Sma(data, w)[i - w + 1].y
    requires stdDev == sqrt(SquaredDeviations(data[i + 1 - w..i + 1], mean) / (w as real))
    ensures Level(data[i].x, mean + numStdDev * stdDev) == UpperPoint(data, i - w + 1, w, numStdDev, sqrt)
    ensures Level(data[i].x, mean - numStdDev * stdDev) == LowerPoint(data, i - w + 1, w, numStdDev, sqrt)
  {
    var lo := i - w + 1;
    assert data[i + 1 - w..i + 1] == data[lo..lo + w];
  }

  /** The loop of `calculateBollingerBands`, reusing the moving average as each window's mean. */
  method CalculateBollingerBands(data: seq<Candle>, windowSize: int, numStdDev: real, sqrt: real -> real)
    returns (bands: Bands)
    requires windowSize >= 1
    ensures bands == Bollinger(data, windowSize, numStdDev, sqrt)
  {
    var sma := CalculateSMA(data, windowSize);
    var upper: seq<Level> := [];
    var lower: seq<Level> := [];
    var i := windowSize - 1;
    while i < |data|
      invariant windowSize - 1 <= i
      invariant i <= |data| || upper == lower == []
      invariant |upper| == |lower| == i - (windowSize - 1)
      invariant forall k :: 0 <= k < |upper| ==> upper[k] == UpperPoint(data, k, windowSize, numStdDev, sqrt)
      invariant forall k :: 0 <= k < |lower| ==> lower[k] == LowerPoint(data, k, windowSize, numStdDev, sqrt)
    {
      var mean := sma[i - windowSize + 1].y;
      var squared := SquaredDeviations(data[i + 1 - windowSize..i + 1], mean);
      var stdDev := sqrt(squared / (windowSize as real));
      BandPointsAt(data, windowSize, numStdDev, sqrt, i, mean, stdDev);
      upper := upper + [Level(data[i].x, mean + numStdDev * stdDev)];
      lower := lower + [Level(data[i].x, mean - numStdDev * stdDev)];
      i := i + 1;
    }
    bands := Bands(sma, upper, lower);
    ghost var spec := Bollinger(data, windowSize, numStdDev, sqrt);
    assert upper == spec.upperBand;
    assert lower == spec.lowerBand;
  }

  /** The three series have equal length and the same timestamps; each band point sits
      `numStdDev` population standard deviations of its window from the average. */
  lemma BollingerShape(data: seq<Candle>, w: int, numStdDev: real, sqrt: real -> real, k: nat)
    requires w >= 1 && k < WindowCount(|data|, w)
    ensures var b := Bollinger(data, w, numStdDev, sqrt);
      && |b.sma| == |b.upperBand| == |b.lowerBand| == WindowCount(|data|, w)
      && b.upperBand[k].x == b.sma[k].x == b.lowerBand[k].x == data[k + w - 1].x
      && b.upperBand[k].y == b.sma[k].y + numStdDev * WindowDeviation(data, k, w, sqrt)
      && b.lowerBand[k].y == b.sma[k].y - numStdDev * WindowDeviation(data, k, w, sqrt)
  {
  }

  /** The bands are symmetric about the moving average. */
  lemma BollingerSymmetric(data: seq<Candle>, w: int, numStdDev: real, sqrt: real -> real, k: nat)
    requires w >= 1 && k < WindowCount(|data|, w)
    ensures var b := Bollinger(data, w, numStdDev, sqrt);
      b.upperBand[k].y + b.lowerBand[k].y == 2.0 * b.sma[k].y
  {
  }

  /** With a non-negative multiplier and a non-negative square root the average lies
      between the bands. */
  lemma BollingerOrdered(data: seq<Candle>, w: int, numStdDev: real, sqrt: real -> real, k: nat)
    requires w >= 1 && k < WindowCount(|data|, w) && numStdDev >= 0.0
    requires forall v :: 0.0 <= v ==> 0.0 <= sqrt(v)
    ensures var b := Bollinger(data, w, numStdDev, sqrt);
      b.lowerBand[k].y <= b.sma[k].y <= b.upperBand[k].y
  {
    SquaredDeviationsNonNegative(data[k..k + w], WindowMean(data, k, w));
    var sd := WindowDeviation(data, k, w, sqrt);
    assert sd >= 0.0;
    assert numStdDev * sd >= 0.0;
  }

  /** The deviation used for the bands is the population standard deviation: its square
      is the mean squared deviation over the window (denominator `w`). */
  lemma BollingerDeviationIsPopulation(data: seq<Candle>, w: int, sqrt: real -> real, k: nat)
    requires w >= 1 && k < WindowCount(|data|, w) && IsSqrt(sqrt)
    ensures var sd := WindowDeviation(data, k, w, sqrt);
      sd >= 0.0 && sd * sd * (w as real) == SquaredDeviations(data[k..k + w], WindowMean(data, k, w))
  {
    var v := SquaredDeviations(data[k..k + w], WindowMean(data, k, w));
    SquaredDeviationsNonNegative(data[k..k + w], WindowMean(data, k, w));
    assert v / (w as real) >= 0.0;
    assert sqrt(v / (w as real)) * sqrt(v / (w as real)) == v / (w as real);
  }

  // ---------------------------------------------------------------------------
  // Standard deviation fan (NASDAQStockChart.js:602-618)

  /** `sigma = close * (volatility / 100) * expiration`. */
  function FanSigma(close: real, volatility: real, expiration: real): real
  {
    close * (volatility / 100.0) * expiration
  }

  /** The fan at one point: the source's seven-level array. */
  function StandardNormalDeviation(data: seq<Candle>, volatility: real, expiration: real): (r: seq<FanPoint>)
    ensures |r| == |data|
    ensures forall i :: 0 <= i < |r| ==> r[i].x == data[i].x && |r[i].y| == 7
  {
    seq(|data|, i requires 0 <= i < |data| =>
      var c := data[i].close;
      var sigma := FanSigma(c, volatility, expiration);
      FanPoint(data[i].x, [c + 0.5 * sigma, c + sigma, c + 2.0 * sigma, c + 3.0 * sigma,
                           c - sigma, c - 2.0 * sigma, c - 3.0 * sigma]))
  }

  /** Levels 1..3 above and 4..6 below pair up symmetrically about the close, level 0
      is half a sigma above it, and the distances from the close are sigma multiples. */
  lemma FanSymmetric(data: seq<Candle>, volatility: real, expiration: real, i: nat)
    requires i < |data|
    ensures var y := StandardNormalDeviation(data, volatility, expiration)[i].y;
      var c := data[i].close;
      var sigma := FanSigma(c, volatility, expiration);
      && y[1] + y[4] == 2.0 * c && y[2] + y[5] == 2.0 * c && y[3] + y[6] == 2.0 * c
      && y[0] - c == 0.5 * sigma && y[1] - c == sigma && y[2] - c == 2.0 * sigma && y[3] - c == 3.0 * sigma
  {
  }

  /** With a non-negative close, volatility and expiration the seven levels are ordered:
      -3 sigma <= -2 sigma <= -sigma <= close <= +0.5 sigma <= +sigma <= +2 sigma <= +3 sigma. */
  lemma FanOrdered(data: seq<Candle>, volatility: real, expiration: real, i: nat)
    requires i < |data| && data[i].close >= 0.0 && volatility >= 0.0 && expiration >= 0.0
    ensures var y := StandardNormalDeviation(data, volatility, expiration)[i].y;
      var c := data[i].close;
      y[6] <= y[5] <= y[4] <= c <= y[0] <= y[1] <= y[2] <= y[3]
  {
    var c := data[i].close;
    var f := volatility / 100.0;
    assert f >= 0.0;
    assert c * f >= 0.0;
    assert FanSigma(c, volatility, expiration) == (c * f) * expiration;
    assert (c * f) * expiration >= 0.0;
  }

  // ---------------------------------------------------------------------------
  // Z-score (NASDAQStockChart.js:621-635)

  /** The mean close of the whole series. */
  function Mean(data: seq<Candle>): real
    requires data != []
  {
    SumCloses(data) / (|data| as real)
  }

  /** The population standard deviation of the closes of the whole series. */
  function StdDev(data: seq<Candle>, sqrt: real -> real): real
    requires data != []
  {
    sqrt(SquaredDeviations(data, Mean(data)) / (|data| as real))
  }

  /** `calculateZScore`: `null` on an empty series; otherwise the score of the last close
      and the levels `mean +- zScore * stdDev`. */
  function CalculateZScore(data: seq<Candle>, sqrt: real -> real): (r: ZScore)
    ensures r.NoData? <==> data == []
    ensures r.ZeroDeviation? <==> data != [] && StdDev(data, sqrt) == 0.0
  {
    if data == [] then NoData
    else
      var lastClose := data[|data| - 1].close;
      var mean := Mean(data);
      var stdDev := StdDev(data, sqrt);
      if stdDev == 0.0 then ZeroDeviation
      else
        var zScore := (lastClose - mean) / stdDev;
        Score(mean + zScore * stdDev, mean - zScore * stdDev, zScore)
  }

  /** The z-score levels collapse: the positive level is the last close itself and the
      two levels are symmetric about the mean; the score measures the last close's
      distance from the mean in standard deviations. */
  lemma ZScoreCollapses(data: seq<Candle>, sqrt: real -> real)
    requires CalculateZScore(data, sqrt).Score?
    ensures var r := CalculateZScore(data, sqrt);
      && r.positive == data[|data| - 1].close
      && r.positive + r.negative == 2.0 * Mean(data)
      && r.zScore * StdDev(data, sqrt) == data[|data| - 1].close - Mean(data)
  {
  }

  /** The standard deviation is zero exactly when every close is the same. */
  lemma ZScoreZeroDeviationIffConstant(data: seq<Candle>, sqrt: real -> real)
    requires data != [] && ZeroOnlyAtZero(sqrt)
    ensures CalculateZScore(data, sqrt).ZeroDeviation? <==>
      forall i :: 0 <= i < |data| ==> data[i].close == data[0].close
  {
    var n := |data| as real;
    var mean := Mean(data);
    var v := SquaredDeviations(data, mean);
    SquaredDeviationsNonNegative(data, mean);
    var s := sqrt(v / n);
    if forall i :: 0 <= i < |data| ==> data[i].close == data[0].close {
      SumConstant(data, data[0].close);
      assert mean == data[0].close;
      SquaredDeviationsOfMean(data, mean);
      assert v / n == 0.0;
    } else {
      var i :| 0 <= i < |data| && data[i].close != data[0].close;
      var j := if data[i].close != mean then i else 0;
      SquaredDeviationsPositive(data, mean, j);
      assert v / n > 0.0;
    }
  }

  /** The heuristic percentages of the z-score overlay. */
  function ZScoreProbability(zScore: real): Probability
  {
    Probability(
      if zScore > 0.0 then 100.0 - zScore * 50.0 else zScore * 50.0,
      if zScore < 0.0 then 100.0 + zScore * 50.0 else -zScore * 50.0)
  }

  /** The two percentages mirror each other: the positive one of `z` is the negative one
      of `-z`; both are zero at `z == 0`, and for `0 < z <= 2` the positive one lies in
      `[0, 100)`. */
  lemma ProbabilityMirror(zScore: real)
    ensures ZScoreProbability(zScore).positive == ZScoreProbability(-zScore).negative
    ensures ZScoreProbability(zScore).negative == ZScoreProbability(-zScore).positive
    ensures zScore == 0.0 ==> ZScoreProbability(zScore) == Probability(0.0, 0.0)
    ensures 0.0 < zScore <= 2.0 ==> 0.0 <= ZScoreProbability(zScore).positive < 100.0
  {
  }

  /** A flat overlay: one point per input timestamp, all at `value`. */
  function ConstantOverlay(data: seq<Candle>, value: real): (r: seq<Level>)
    ensures |r| == |data|
    ensures forall i :: 0 <= i < |r| ==> r[i].x == data[i].x && r[i].y == value
  {
    seq(|data|, i requires 0 <= i < |data| => Level(data[i].x, value))
  }

  // ---------------------------------------------------------------------------
  // The worked example: closes 10, 12, 14, 16, 18.

  function ExampleSeries(): seq<Candle>
  {
    [Candle(0, 10.0, 10.0, 10.0, 10.0), Candle(1, 12.0, 12.0, 12.0, 12.0),
     Candle(2, 14.0, 14.0, 14.0, 14.0), Candle(3, 16.0, 16.0, 16.0, 16.0),
     Candle(4, 18.0, 18.0, 18.0, 18.0)]
  }

  lemma SumOfThree(a: seq<Candle>, mean: real)
    requires |a| == 3
    ensures SumCloses(a) == a[0].close + a[1].close + a[2].close
    ensures SquaredDeviations(a, mean) ==
      (a[0].close - mean) * (a[0].close - mean) + (a[1].close - mean) * (a[1].close - mean)
      + (a[2].close - mean) * (a[2].close - mean)
  {
    var a1, a2 := a[..2][..1], a[..2];
    assert a1[..0] == [];
    assert SumCloses(a1) == a[0].close;
    assert SumCloses(a2) == a[0].close + a[1].close;
    assert SquaredDeviations(a1, mean) == (a[0].close - mean) * (a[0].close - mean);
  }

  /** A three-point average of 10..18 is 12, 14, 16 at the last three timestamps, and the
      first Bollinger window has population variance 8/3. */
  lemma ExampleAverages(sqrt: real -> real)
    ensures Sma(ExampleSeries(), 3) == [Level(2, 12.0), Level(3, 14.0), Level(4, 16.0)]
    ensures var b := Bollinger(ExampleSeries(), 3, 2.0, sqrt);
      b.upperBand[0] == Level(2, 12.0 + 2.0 * sqrt(8.0 / 3.0)) &&
      b.lowerBand[0] == Level(2, 12.0 - 2.0 * sqrt(8.0 / 3.0))
  {
    var s := ExampleSeries();
    SumOfThree(s[0..3], 12.0);
    SumOfThree(s[1..4], 14.0);
    SumOfThree(s[2..5], 16.0);
    assert WindowMean(s, 0, 3) == 12.0;
    assert WindowMean(s, 1, 3) == 14.0;
    assert WindowMean(s, 2, 3) == 16.0;
    assert SquaredDeviations(s[0..3], 12.0) == 8.0;
  }
}
