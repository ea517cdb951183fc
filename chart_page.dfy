/**
 * The state of the NASDAQ chart page that the indicators live in: the price
 * series received from the chart API, the list of indicators switched on and
 * the series each indicator draws, and the sort order of the trade-orders
 * table.
 *
 * Each piece of React state is a field of a class; each handler is a method
 * proved against a pure transition function on a value snapshot of that
 * state, and the lemmas state what the transitions promise.
 */
module ChartPage {
  import opened Wrappers
  import opened Indicators

  // ---------------------------------------------------------------------------
  // Historical data (NASDAQStockChart.js:572-597)

  /** The intraday intervals, the only ones the API serves over a one-day range. */
  const IntradayIntervals: set<string> := {"1m", "2m", "5m", "15m"}

  /** The range requested with an interval. */
  function ValidRange(interval: string): (range: string)
    ensures range == "1d" <==> interval in IntradayIntervals
    ensures range == "1mo" <==> interval !in IntradayIntervals
  {
    if interval == "1m" || interval == "2m" || interval == "5m" || interval == "15m" then "1d" else "1mo"
  }

  /** `chart.result[0]` of a chart API reply: timestamps in seconds and the
      four price arrays of `indicators.quote[0]`. */
  datatype Quote = Quote(timestamp: seq<int>, open: seq<real>, high: seq<real>, low: seq<real>, close: seq<real>)

  /** Every timestamp has its four prices. */
  predicate WellFormed(q: Quote)
  {
    |q.open| >= |q.timestamp| && |q.high| >= |q.timestamp| &&
    |q.low| >= |q.timestamp| && |q.close| >= |q.timestamp|
  }

  /** One candle per timestamp, stamped in milliseconds. */
  function ZipQuotes(q: Quote): (r: seq<Candle>)
    requires WellFormed(q)
    ensures |r| == |q.timestamp|
  {
    seq(|q.timestamp|, i requires 0 <= i < |q.timestamp| =>
      Candle(q.timestamp[i] * 1000, q.open[i], q.high[i], q.low[i], q.close[i]))
  }

  /** Candle `i` carries the four prices at index `i`, and its millisecond
      stamp converts back to the second it came from. */
  lemma ZipQuotesRoundTrip(q: Quote, i: nat)
    requires WellFormed(q) && i < |q.timestamp|
    ensures var c := ZipQuotes(q)[i];
      && c.x / 1000 == q.timestamp[i] && c.x % 1000 == 0
      && c.open == q.open[i] && c.high == q.high[i] && c.low == q.low[i] && c.close == q.close[i]
  {
    var c := ZipQuotes(q)[i];
    assert c.x == q.timestamp[i] * 1000;
  }

  /** Strictly increasing timestamps give a series in strictly increasing time. */
  lemma ZipQuotesKeepsTimeOrder(q: Quote)
    requires WellFormed(q)
    requires forall i, j :: 0 <= i < j < |q.timestamp| ==> q.timestamp[i] < q.timestamp[j]
    ensures forall i, j :: 0 <= i < j < |ZipQuotes(q)| ==> ZipQuotes(q)[i].x < ZipQuotes(q)[j].x
  {
    var r := ZipQuotes(q);
    forall i, j | 0 <= i < j < |r|
      ensures r[i].x < r[j].x
    {
      assert r[i].x == q.timestamp[i] * 1000 && r[j].x == q.timestamp[j] * 1000;
    }
  }

  // ---------------------------------------------------------------------------
  // The indicator state (NASDAQStockChart.js:373-379, 388, 637-677)

  /** The `params` object handed to `addIndicator`; each indicator reads its own fields. */
  datatype Params = Params(windowSize: int, numStdDev: real, volatility: real, expiration: real)

  /** The `bollingerBands` state. */
  datatype BandPair = BandPair(upperBand: seq<Level>, lowerBand: seq<Level>)

  /** The `zScoreData` state. */
  datatype ZScoreData = ZScoreData(zScorePositive: seq<Level>, zScoreNegative: seq<Level>)

  /** A snapshot of the chart page's indicator state. */
  datatype Panel = Panel(
    historicalData: seq<Candle>,
    compareData: seq<Candle>,
    selectedIndicators: seq<string>,
    smaData: seq<Level>,
    bollingerBands: BandPair,
    standardNormalDeviationData: seq<FanPoint>,
    zScoreData: ZScoreData,
    zScoreProbability: Option<Probability>)

  /** The state the page mounts with. */
  function InitialPanel(): Panel
  {
    Panel([], [], [], [], BandPair([], []), [], ZScoreData([], []), None)
  }

  /** No indicator is listed twice. */
  predicate Distinct(tags: seq<string>)
  {
    forall i, j :: 0 <= i < j < |tags| ==> tags[i] != tags[j]
  }

  /** The indicators whose computation walks windows of `windowSize` points. */
  const WindowedIndicators: set<string> := {"SMA", "BollingerBands"}

  /** What `addIndicator` needs of its arguments: a windowed indicator not yet
      shown needs at least one point per window. */
  predicate CanAdd(p: Panel, indicatorType: string, params: Params)
  {
    indicatorType !in p.selectedIndicators && indicatorType in WindowedIndicators ==> params.windowSize >= 1
  }

  /** The fetch handler: a reply replaces the main or the comparison series; a
      failed request changes nothing. */
  function Received(p: Panel, reply: Option<Quote>, isCompare: bool): (r: Panel)
    requires reply.Some? ==> WellFormed(reply.value)
    ensures reply.None? ==> r == p
    ensures reply.Some? && !isCompare ==>
      r.historicalData == ZipQuotes(reply.value) && r.compareData == p.compareData
    ensures reply.Some? && isCompare ==>
      r.compareData == ZipQuotes(reply.value) && r.historicalData == p.historicalData
    ensures r.selectedIndicators == p.selectedIndicators && r.smaData == p.smaData
    ensures r.bollingerBands == p.bollingerBands && r.zScoreData == p.zScoreData
    ensures r.standardNormalDeviationData == p.standardNormalDeviationData
    ensures r.zScoreProbability == p.zScoreProbability
  {
    match reply
    case None => p
    case Some(q) =>
      if isCompare then p.(compareData := ZipQuotes(q)) else p.(historicalData := ZipQuotes(q))
  }

  /** `addIndicator`: an indicator already shown changes nothing; otherwise it is
      appended to the list and its series are computed from the main series. */
  function WithIndicator(p: Panel, indicatorType: string, params: Params, sqrt: real -> real): (r: Panel)
    requires CanAdd(p, indicatorType, params)
    ensures indicatorType in p.selectedIndicators ==> r == p
    ensures indicatorType !in p.selectedIndicators ==> r.selectedIndicators == p.selectedIndicators + [indicatorType]
    ensures r.historicalData == p.historicalData && r.compareData == p.compareData
  {
    if indicatorType in p.selectedIndicators then p
    else
      var h := p.historicalData;
      var q := p.(selectedIndicators := p.selectedIndicators + [indicatorType]);
      if indicatorType == "SMA" then
        q.(smaData := Sma(h, params.windowSize))
      else if indicatorType == "BollingerBands" then
        var bands := Bollinger(h, params.windowSize, params.numStdDev, sqrt);
        q.(smaData := bands.sma, bollingerBands := BandPair(bands.upperBand, bands.lowerBand))
      else if indicatorType == "StandardNormalDeviation" then
        q.(standardNormalDeviationData := StandardNormalDeviation(h, params.volatility, params.expiration))
      else if indicatorType == "ZScore" then
        match CalculateZScore(h, sqrt)
        case Score(positive, negative, zScore) =>
          q.(zScoreData := ZScoreData(ConstantOverlay(h, positive), ConstantOverlay(h, negative)),
             zScoreProbability := Some(ZScoreProbability(zScore)))
        case _ => q
      else
        q
  }

  /** Adding the same indicator twice is adding it once. */
  lemma AddIndicatorIdempotent(p: Panel, indicatorType: string, params: Params, sqrt: real -> real)
    requires CanAdd(p, indicatorType, params)
    ensures CanAdd(WithIndicator(p, indicatorType, params, sqrt), indicatorType, params)
    ensures var once := WithIndicator(p, indicatorType, params, sqrt);
      WithIndicator(once, indicatorType, params, sqrt) == once
  {
  }

  /** The list of indicators never holds a duplicate, and it only grows. */
  lemma AddIndicatorKeepsDistinct(p: Panel, indicatorType: string, params: Params, sqrt: real -> real)
    requires CanAdd(p, indicatorType, params) && Distinct(p.selectedIndicators)
    ensures var r := WithIndicator(p, indicatorType, params, sqrt);
      && Distinct(r.selectedIndicators)
      && indicatorType in r.selectedIndicators
      && p.selectedIndicators <= r.selectedIndicators
  {
    var r := WithIndicator(p, indicatorType, params, sqrt);
    if indicatorType !in p.selectedIndicators {
      var tags := r.selectedIndicators;
      assert tags == p.selectedIndicators + [indicatorType];
      forall i, j | 0 <= i < j < |tags|
        ensures tags[i] != tags[j]
      {
        if j == |tags| - 1 {
          assert tags[i] == p.selectedIndicators[i];
        } else {
          assert tags[i] == p.selectedIndicators[i] && tags[j] == p.selectedIndicators[j];
        }
      }
    }
  }

  /** Each indicator writes only its own slots: the moving average writes the
      average, the bands write the bands and the average they are built around,
      the fan and the z-score write their own series. */
  lemma AddIndicatorWritesOnlyItsSlots(p: Panel, indicatorType: string, params: Params, sqrt: real -> real)
    requires CanAdd(p, indicatorType, params)
    ensures var r := WithIndicator(p, indicatorType, params, sqrt);
      && (indicatorType != "SMA" && indicatorType != "BollingerBands" ==> r.smaData == p.smaData)
      && (indicatorType != "BollingerBands" ==> r.bollingerBands == p.bollingerBands)
      && (indicatorType != "StandardNormalDeviation" ==>
            r.standardNormalDeviationData == p.standardNormalDeviationData)
      && (indicatorType != "ZScore" ==>
            r.zScoreData == p.zScoreData && r.zScoreProbability == p.zScoreProbability)
  {
  }

  /** After the bands are added the average on screen is the bands' own middle
      line; after the moving average is added it is the moving average. */
  lemma AddIndicatorAverageMatches(p: Panel, indicatorType: string, params: Params, sqrt: real -> real)
    requires indicatorType in WindowedIndicators && indicatorType !in p.selectedIndicators
    requires params.windowSize >= 1
    ensures var r := WithIndicator(p, indicatorType, params, sqrt);
      && r.smaData == Sma(p.historicalData, params.windowSize)
      && (indicatorType == "BollingerBands" ==>
            |r.bollingerBands.upperBand| == |r.bollingerBands.lowerBand| == |r.smaData|)
  {
    var w := params.windowSize;
    var h := p.historicalData;
    if indicatorType == "BollingerBands" {
      var n := WindowCount(|h|, w);
      if n > 0 {
        BollingerShape(h, w, params.numStdDev, sqrt, 0);
      }
    }
  }

  /** With a series whose closes are not all equal, the z-score indicator draws
      two flat lines over every timestamp; the upper one sits exactly at the last
      close and the two are symmetric about the mean. */
  lemma AddZScoreDrawsLastClose(p: Panel, params: Params, sqrt: real -> real)
    requires "ZScore" !in p.selectedIndicators
    requires CalculateZScore(p.historicalData, sqrt).Score?
    ensures var r := WithIndicator(p, "ZScore", params, sqrt);
      var h := p.historicalData;
      && |r.zScoreData.zScorePositive| == |r.zScoreData.zScoreNegative| == |h|
      && (forall i :: 0 <= i < |h| ==>
            r.zScoreData.zScorePositive[i] == Level(h[i].x, h[|h| - 1].close) &&
            r.zScoreData.zScoreNegative[i].x == h[i].x &&
            r.zScoreData.zScorePositive[i].y + r.zScoreData.zScoreNegative[i].y == 2.0 * Mean(h))
      && r.zScoreProbability == Some(ZScoreProbability(CalculateZScore(h, sqrt).zScore))
  {
    ZScoreCollapses(p.historicalData, sqrt);
  }

  /** On an empty series the z-score indicator is listed but draws nothing new. */
  lemma AddZScoreOnEmptySeries(p: Panel, params: Params, sqrt: real -> real)
    requires "ZScore" !in p.selectedIndicators && p.historicalData == []
    ensures var r := WithIndicator(p, "ZScore", params, sqrt);
      r == p.(selectedIndicators := p.selectedIndicators + ["ZScore"])
  {
  }

  /** A series that arrives after an indicator was added does not recompute it:
      the indicator keeps the series it was computed from. */
  lemma ReceivedKeepsIndicators(p: Panel, indicatorType: string, params: Params, sqrt: real -> real, reply: Option<Quote>)
    requires CanAdd(p, indicatorType, params) && indicatorType !in p.selectedIndicators && indicatorType == "SMA"
    requires reply.Some? ==> WellFormed(reply.value)
    ensures var r := Received(WithIndicator(p, indicatorType, params, sqrt), reply, false);
      && indicatorType in r.selectedIndicators
      && r.smaData == Sma(p.historicalData, params.windowSize)
  {
  }

  /** The chart page's indicator state; `AddIndicator` and
      `ReceiveHistoricalData` are the source's handlers. */
  class IndicatorPanel {
    var historicalData: seq<Candle>
    var compareData: seq<Candle>
    var selectedIndicators: seq<string>
    var smaData: seq<Level>
    var bollingerBands: BandPair
    var standardNormalDeviationData: seq<FanPoint>
    var zScoreData: ZScoreData
    var zScoreProbability: Option<Probability>

    /** The state as a value. */
    function State(): Panel
      reads this
    {
      Panel(historicalData, compareData, selectedIndicators, smaData, bollingerBands,
        standardNormalDeviationData, zScoreData, zScoreProbability)
    }

    /** No indicator is listed twice. */
    predicate Valid()
      reads this
    {
      Distinct(selectedIndicators)
    }

    constructor()
      ensures State() == InitialPanel() && Valid()
    {
      historicalData := [];
      compareData := [];
      selectedIndicators := [];
      smaData := [];
      bollingerBands := BandPair([], []);
      standardNormalDeviationData := [];
      zScoreData := ZScoreData([], []);
      zScoreProbability := None;
    }

    /** `fetchHistoricalData` once the request has settled: `reply` is the parsed
        reply, or `None` when the request or the parsing failed. */
    method ReceiveHistoricalData(reply: Option<Quote>, isCompare: bool)
      requires Valid()
      requires reply.Some? ==> WellFormed(reply.value)
      modifies this
      ensures State() == Received(old(State()), reply, isCompare)
      ensures Valid()
    {
      if reply.Some? {
        var formattedData := ZipQuotes(reply.value);
        if isCompare {
          compareData := formattedData;
        } else {
          historicalData := formattedData;
        }
      }
    }

    /** `addIndicator(indicatorType, params)`. */
    method AddIndicator(indicatorType: string, params: Params, sqrt: real -> real)
      requires Valid()
      requires CanAdd(State(), indicatorType, params)
      modifies this
      ensures State() == WithIndicator(old(State()), indicatorType, params, sqrt)
      ensures Valid()
    {
      ghost var before := State();
      if indicatorType in selectedIndicators {
        return;
      }
      selectedIndicators := selectedIndicators + [indicatorType];
      if indicatorType == "SMA" {
        smaData := CalculateSMA(historicalData, params.windowSize);
      } else if indicatorType == "BollingerBands" {
        var bands := CalculateBollingerBands(historicalData, params.windowSize, params.numStdDev, sqrt);
        smaData := bands.sma;
        bollingerBands := BandPair(bands.upperBand, bands.lowerBand);
      } else if indicatorType == "StandardNormalDeviation" {
        standardNormalDeviationData := StandardNormalDeviation(historicalData, params.volatility, params.expiration);
      } else if indicatorType == "ZScore" {
        var zScoreResult := CalculateZScore(historicalData, sqrt);
        if zScoreResult.Score? {
          zScoreData := ZScoreData(
            ConstantOverlay(historicalData, zScoreResult.positive),
            ConstantOverlay(historicalData, zScoreResult.negative));
          zScoreProbability := Some(ZScoreProbability(zScoreResult.zScore));
        }
      }
      AddIndicatorKeepsDistinct(before, indicatorType, params, sqrt);
    }
  }

  // ---------------------------------------------------------------------------
  // Sorting the trade-orders table (NASDAQStockChart.js:399-400, 471-485)

  datatype Direction = Asc | Desc

  /** The sort column and direction as a value. */
  datatype SortState = SortState(column: string, direction: Direction)

  /** `handleSort(column)`: the current column flips its direction, any other
      column becomes the current one, ascending. */
  function Clicked(s: SortState, column: string): (r: SortState)
    ensures r.column == column
  {
    if s.column == column then
      SortState(column, if s.direction == Asc then Desc else Asc)
    else
      SortState(column, Asc)
  }

  /** `getSortIcon(column)`. */
  function SortIcon(s: SortState, column: string): (icon: string)
    ensures icon == "↕" <==> s.column != column
  {
    if s.column != column then "↕"
    else if s.direction == Asc then "↑" else "↓"
  }

  /** Clicking the current column twice restores the order. */
  lemma ClickedTwiceRestores(s: SortState)
    ensures Clicked(Clicked(s, s.column), s.column) == s
  {
  }

  /** A first click on a column sorts it ascending, a second descending, and
      every click shows an arrow on the clicked column and the neutral icon on
      every other one. */
  lemma ClickedIcons(s: SortState, column: string, other: string)
    requires other != column
    ensures s.column != column ==> SortIcon(Clicked(s, column), column) == "↑"
    ensures s.column != column ==> SortIcon(Clicked(Clicked(s, column), column), column) == "↓"
    ensures SortIcon(Clicked(s, column), column) in {"↑", "↓"}
    ensures SortIcon(Clicked(s, column), other) == "↕"
  {
  }

  /** The sort state of the trade-orders table. */
  class OrderSort {
    var sortColumn: string
    var sortDirection: Direction

    /** The state as a value. */
    function State(): SortState
      reads this
    {
      SortState(sortColumn, sortDirection)
    }

    constructor()
      ensures State() == SortState("type", Asc)
    {
      sortColumn := "type";
      sortDirection := Asc;
    }

    method HandleSort(column: string)
      modifies this
      ensures State() == Clicked(old(State()), column)
    {
      if sortColumn == column {
        sortDirection := if sortDirection == Asc then Desc else Asc;
      } else {
        sortColumn := column;
        sortDirection := Asc;
      }
    }

    function GetSortIcon(column: string): (icon: string)
      reads this
      ensures icon == "↕" <==> sortColumn != column
    {
      SortIcon(State(), column)
    }
  }
}
