/** The series preparation of the price chart (the memoised transform in
    src/components/MainChart/index.tsx): candles become display points, a
    padded y-axis domain is computed from the closes, volume bars are
    coloured by direction, and the x-axis padding depends on the series
    length. Date-label text is not part of this model. */
module MainChart {
  import opened Common
  import opened Types

  /** One display point. `price`, `value` and `close` all carry the close. */
  datatype ChartPoint = ChartPoint(
    timestamp: TimeLabel,
    time: TimeLabel,
    price: real,
    value: real,
    open: real,
    high: real,
    low: real,
    close: real,
    volume: real,
    isUp: bool)

  /** A display point with the colour and opacity of its volume bar. */
  datatype VolumeBar = VolumeBar(point: ChartPoint, volumeColor: string, volumeOpacity: real)

  /** The y-axis domain: recharts' automatic domain, or explicit bounds. */
  datatype AxisDomain = Auto | Bounds(lo: real, hi: real)

  datatype AxisPadding = AxisPadding(left: int, right: int)

  datatype ChartSeries = ChartSeries(
    processedData: seq<ChartPoint>,
    volumeData: seq<VolumeBar>,
    yAxisDomain: AxisDomain,
    xAxisPadding: AxisPadding)

  const UpColor := "#3b82f6"
  const DownColor := "#60a5fa"

  /** `Math.min(...closes)`: a close no other close is below. */
  function MinClose(cs: seq<CandleData>): (m: real)
    requires |cs| > 0
    ensures forall i :: 0 <= i < |cs| ==> m <= cs[i].close
    ensures exists i :: 0 <= i < |cs| && cs[i].close == m
  {
    if |cs| == 1 then cs[0].close
    else
      var rest := MinClose(cs[1..]);
      assert forall i :: 1 <= i < |cs| ==> cs[i] == cs[1..][i - 1];
      if cs[0].close <= rest then cs[0].close else rest
  }

  /** `Math.max(...closes)`: a close no other close is above. */
  function MaxClose(cs: seq<CandleData>): (m: real)
    requires |cs| > 0
    ensures forall i :: 0 <= i < |cs| ==> cs[i].close <= m
    ensures exists i :: 0 <= i < |cs| && cs[i].close == m
  {
    if |cs| == 1 then cs[0].close
    else
      var rest := MaxClose(cs[1..]);
      assert forall i :: 1 <= i < |cs| ==> cs[i] == cs[1..][i - 1];
      if cs[0].close >= rest then cs[0].close else rest
  }

  /** `candle.volume || 0`: NaN (and a missing volume) is falsy and becomes
      0; every other value, 0 included, is kept. */
  function VolumeOrZero(v: Number): (x: real)
    ensures v.Real? ==> x == v.r
    ensures x == 0.0 <==> v.NaN? || v.r == 0.0
  {
    match v
    case NaN => 0.0
    case Real(x) => x
  }

  /** The display point of one candle. */
  function ToPoint(c: CandleData): (p: ChartPoint)
    ensures Displays(c, p)
  {
    ChartPoint(c.time, c.time, c.close, c.close, c.open, c.high, c.low, c.close,
               VolumeOrZero(c.volume), c.close >= c.open)
  }

  /** The volume bar of one point: its colour and opacity depend on the
      direction only. */
  function ToVolumeBar(p: ChartPoint): (b: VolumeBar)
    ensures b.point == p
    ensures b.volumeColor == UpColor && b.volumeOpacity == 0.7 <==> p.isUp
    ensures b.volumeColor == DownColor && b.volumeOpacity == 0.5 <==> !p.isUp
  {
    if p.isUp then VolumeBar(p, UpColor, 0.7) else VolumeBar(p, DownColor, 0.5)
  }

  /** The relation between a candle and its display point: the close is shown
      as `price`, `value` and `close`, the other prices and the time are
      copied, a falsy volume shows as 0, and the point is "up" exactly when
      the candle closed at or above its open. */
  predicate Displays(c: CandleData, p: ChartPoint)
  {
    && p.price == c.close && p.value == c.close && p.close == c.close
    && p.open == c.open && p.high == c.high && p.low == c.low
    && p.time == c.time && p.timestamp == c.time
    && p.volume == VolumeOrZero(c.volume)
    && (p.isUp <==> c.close >= c.open)
  }

  /** The y-axis domain of a non-empty series: the range of the closes
      widened by five percent of its width on each side. */
  function PaddedDomain(cs: seq<CandleData>): (d: AxisDomain)
    requires |cs| > 0
    ensures d.Bounds? && d.lo <= d.hi
    ensures forall i :: 0 <= i < |cs| ==> d.lo <= cs[i].close <= d.hi
    ensures exists i, j :: 0 <= i < |cs| && 0 <= j < |cs|
              && (forall k :: 0 <= k < |cs| ==> cs[i].close <= cs[k].close <= cs[j].close)
              && d.lo == cs[i].close - (cs[j].close - cs[i].close) / 20.0
              && d.hi == cs[j].close + (cs[j].close - cs[i].close) / 20.0
  {
    var minPrice := MinClose(cs);
    var maxPrice := MaxClose(cs);
    var padding := (maxPrice - minPrice) * 0.05;
    Bounds(minPrice - padding, maxPrice + padding)
  }

  /** The memoised transform of the chart component. */
  function ProcessChartData(chartData: seq<CandleData>): (r: ChartSeries)
    ensures |chartData| == 0 ==> r == ChartSeries([], [], Auto, AxisPadding(20, 20))
    ensures |r.processedData| == |chartData| && |r.volumeData| == |chartData|
    ensures forall i :: 0 <= i < |chartData| ==> Displays(chartData[i], r.processedData[i])
    ensures forall i :: 0 <= i < |chartData| ==> r.volumeData[i].point == r.processedData[i]
    ensures |chartData| > 0 ==> r.yAxisDomain.Bounds? && r.yAxisDomain == PaddedDomain(chartData)
    ensures |chartData| > 0 ==>
              forall i :: 0 <= i < |chartData| ==> r.yAxisDomain.lo <= chartData[i].close <= r.yAxisDomain.hi
    ensures |chartData| > 10 ==> r.xAxisPadding == AxisPadding(30, 30)
    ensures 0 < |chartData| <= 10 ==> r.xAxisPadding == AxisPadding(40, 40)
  {
    if |chartData| == 0 then
      ChartSeries([], [], Auto, AxisPadding(20, 20))
    else
      var processed := seq(|chartData|, i requires 0 <= i < |chartData| => ToPoint(chartData[i]));
      var volume := seq(|processed|, i requires 0 <= i < |processed| => ToVolumeBar(processed[i]));
      var xPadding := if |chartData| > 10 then AxisPadding(30, 30) else AxisPadding(40, 40);
      ChartSeries(processed, volume, PaddedDomain(chartData), xPadding)
  }

  /** The candle a display point shows. */
  function ToCandle(p: ChartPoint): CandleData
  {
    CandleData(p.time, p.open, Real(p.volume), p.high, p.low, p.close)
  }

  /** No information is lost in the transform: every candle is recovered
      from its point, except that a falsy volume reads back as 0. */
  lemma PointsRecoverCandles(chartData: seq<CandleData>)
    ensures var r := ProcessChartData(chartData);
      forall i :: 0 <= i < |chartData| ==>
        ToCandle(r.processedData[i]) == chartData[i].(volume := Real(VolumeOrZero(chartData[i].volume)))
  {
  }

  /** With all closes equal the domain collapses to that price. */
  lemma FlatSeriesDomain(chartData: seq<CandleData>, p: real)
    requires |chartData| > 0
    requires forall i :: 0 <= i < |chartData| ==> chartData[i].close == p
    ensures ProcessChartData(chartData).yAxisDomain == Bounds(p, p)
  {
  }

  /** A volume bar's colour and opacity are determined by whether its
      candle went up: blue at 0.7 when up, light blue at 0.5 otherwise. */
  lemma VolumeBarStyle(chartData: seq<CandleData>)
    ensures var r := ProcessChartData(chartData);
      forall i :: 0 <= i < |chartData| ==>
        var b := r.volumeData[i];
        (b.volumeColor == UpColor && b.volumeOpacity == 0.7 <==> chartData[i].close >= chartData[i].open)
        && (b.volumeColor == DownColor && b.volumeOpacity == 0.5 <==> chartData[i].close < chartData[i].open)
  {
  }
}
