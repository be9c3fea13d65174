/** The records the components exchange (src/types/crypto.ts). */
module Types {
  import opened Common

  /** One coin row of the market table. */
  datatype CryptoData = CryptoData(
    id: string,
    name: string,
    symbol: string,
    image: string,
    rank: real,
    price: real,
    change24h: real,
    marketCap: real,
    volume24h: real,
    high24h: real,
    low24h: real,
    ath: real)

  /** The `time` label of a candle. Rendered date text is kept as opaque
      text; the mock generator's label is represented by its day offset
      from today. */
  datatype TimeLabel = DaysAgo(days: nat) | Text(text: string)

  /** One OHLCV bar. `volume` may be NaN (or missing), which the chart
      treats as falsy. */
  datatype CandleData = CandleData(
    time: TimeLabel,
    open: real,
    volume: Number,
    high: real,
    low: real,
    close: real)

  /** One holding of the simulated portfolio. */
  datatype PortfolioItem = PortfolioItem(coinId: string, amount: real, investedValue: real)

  datatype SortKey = Rank | Name | Price | Change24h | MarketCap

  datatype SortDirection = Asc | Desc

  /** `Array.prototype.find` by id: the first coin whose id is `id`. */
  function FindCoin(coins: seq<CryptoData>, id: string): (r: Option<CryptoData>)
    ensures r.None? <==> forall k :: 0 <= k < |coins| ==> coins[k].id != id
    ensures r.Some? ==> r.value.id == id && r.value in coins
    ensures r.Some? ==> exists k :: 0 <= k < |coins| && coins[k] == r.value
                                    && forall j :: 0 <= j < k ==> coins[j].id != id
  {
    if |coins| == 0 then None
    else if coins[0].id == id then Some(coins[0])
    else
      var r := FindCoin(coins[1..], id);
      if r.Some? then
        var k :| 0 <= k < |coins[1..]| && coins[1..][k] == r.value
                 && forall j :: 0 <= j < k ==> coins[1..][j].id != id;
        assert coins[k + 1] == r.value;
        r
      else r
  }
}
