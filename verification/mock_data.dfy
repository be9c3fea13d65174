/** Mock market data (src/utils/MockData.ts): the fixed list of ten coins
    and the random-walk candle generator. `Math.random` is replaced by a
    sequence of draws in [0, 1) given as a parameter; each candle consumes
    four draws, in the order `generateCandleData` draws them (change, high
    wick, low wick, volume). */
module MockData {
  import opened Common
  import opened Types

  /** The id of coin `k`. */
  function CoinId(k: nat): (id: string)
    requires k < 10
    ensures |id| == IdLengths[k] && id[0] == IdInitials[k]
  {
    match k
    case 0 => "bitcoin"
    case 1 => "ethereum"
    case 2 => "tether"
    case 3 => "binancecoin"
    case 4 => "ripple"
    case 5 => "usd-coin"
    case 6 => "solana"
    case 7 => "tron"
    case 8 => "staked-ether"
    case 9 => "dogecoin"
  }

  /** The market-cap rank of coin `k`, counting from 1. */
  function RankOf(k: nat): real
  {
    (k + 1) as real
  }

  /** The row of coin `k`, with its id, logo and rank `k + 1`. */
  function Coin(k: nat, name: string, symbol: string, price: real, change24h: real, marketCap: real,
                volume24h: real, high24h: real, low24h: real, ath: real): (c: CryptoData)
    requires k < 10
    ensures c.id == CoinId(k) && c.rank == RankOf(k) && c.price == price
  {
    CryptoData(CoinId(k), name, symbol, ImageUrl(k), RankOf(k), price, change24h, marketCap,
               volume24h, high24h, low24h, ath)
  }

  /** Coin `k` of the fixed list (rank `k + 1`). */
  function MockCoin(k: nat): (c: CryptoData)
    requires k < 10
    ensures c.rank == RankOf(k)
    ensures c.price > 0.0
    ensures c.id == CoinId(k)
  {
    match k
    case 0 => Coin(0, "Bitcoin", "BTC",
        81237.0, -2.09963, 1621663737391.0, 56510685937.0, 84368.0, 80898.0, 126080.0)
    case 1 => Coin(1, "Ethereum", "ETH",
        2533.24, -7.30263, 305120886868.0, 36682841990.0, 2753.01, 2517.95, 4946.05)
    case 2 => Coin(2, "Tether", "USDT",
        0.998583, 0.00655, 185106467178.0, 101686029463.0, 0.998699, 0.998257, 1.32)
    case 3 => Coin(3, "BNB", "BNB",
        809.83, -4.89691, 110198542513.0, 1860709175.0, 859.25, 806.57, 1369.99)
    case 4 => Coin(4, "XRP", "XRP",
        1.63, -7.60609, 98999386079.0, 4471285565.0, 1.78, 1.62, 3.65)
    case 5 => Coin(5, "USDC", "USDC",
        0.999722, 0.00766, 70034080808.0, 11947927261.0, 0.999811, 0.999521, 1.17)
    case 6 => Coin(6, "Solana", "SOL",
        108.92, -6.46007, 61605853360.0, 6508111283.0, 118.61, 108.81, 293.31)
    case 7 => Coin(7, "TRON", "TRX",
        0.287611, -1.37264, 27238812375.0, 746975023.0, 0.294849, 0.287585, 0.431288)
    case 8 => Coin(8, "Lido Staked Ether", "STETH",
        2525.22, -7.76628, 24127356650.0, 36351180.0, 2749.31, 2517.78, 4932.89)
    case 9 => Coin(9, "Dogecoin", "DOGE",
        0.106705, -7.62512, 17976182266.0, 1568768416.0, 0.118269, 0.106305, 0.731578)
  }

  /** The logo address of coin `k`. */
  function ImageUrl(k: nat): string
    requires k < 10
  {
    match k
    case 0 => "https://coin-images.coingecko.com/coins/images/1/large/bitcoin.png?1696501400"
    case 1 => "https://coin-images.coingecko.com/coins/images/279/large/ethereum.png?1696501628"
    case 2 => "https://coin-images.coingecko.com/coins/images/325/large/Tether.png?1696501661"
    case 3 => "https://coin-images.coingecko.com/coins/images/825/large/bnb-icon2_2x.png?1696501970"
    case 4 => "https://coin-images.coingecko.com/coins/images/44/large/xrp-symbol-white-128.png?1696501442"
    case 5 => "https://coin-images.coingecko.com/coins/images/6319/large/USDC.png?1769615602"
    case 6 => "https://coin-images.coingecko.com/coins/images/4128/large/solana.png?1718769756"
    case 7 => "https://coin-images.coingecko.com/coins/images/1094/large/tron-logo.png?1696502193"
    case 8 => "https://coin-images.coingecko.com/coins/images/13442/large/steth_logo.png?1696513206"
    case 9 => "https://coin-images.coingecko.com/coins/images/5/large/dogecoin.png?1696501409"
  }

  /** The length and first letter of each id: together they tell the ten
      ids apart. */
  const IdLengths: seq<nat> := [7, 8, 6, 11, 6, 8, 6, 4, 12, 8]
  const IdInitials: string := "betbrustsd"

  /** The fixed coin list, in market-cap rank order. */
  function MockCryptoData(): (r: seq<CryptoData>)
    ensures |r| == 10
    ensures forall k :: 0 <= k < |r| ==> r[k].rank == (k + 1) as real
    ensures forall i, j :: 0 <= i < j < |r| ==> r[i].id != r[j].id
    ensures forall k :: 0 <= k < |r| ==> r[k].price > 0.0
  {
    var r := seq(10, k requires 0 <= k < 10 => MockCoin(k));
    assert forall i, j :: 0 <= i < j < 10 ==> IdLengths[i] != IdLengths[j] || IdInitials[i] != IdInitials[j];
    r
  }

  /** Every draw lies in [0, 1), as `Math.random` promises. */
  predicate UnitDraws(rand: seq<real>)
  {
    forall k :: 0 <= k < |rand| ==> 0.0 <= rand[k] < 1.0
  }

  function Max(a: real, b: real): real { if a >= b then a else b }

  function Min(a: real, b: real): real { if a <= b then a else b }

  function Abs(a: real): real { if a >= 0.0 then a else -a }

  /** The candle invariant: the wicks enclose both open and close. */
  predicate WellFormed(c: CandleData)
  {
    c.low <= Min(c.open, c.close) && Max(c.open, c.close) <= c.high
  }

  /** The move of one candle, `(r - 0.5) * 0.1 * basePrice`, stays within
      five percent of a non-negative base price, strictly below it when the
      base price is positive. */
  lemma ChangeBounds(r: real, basePrice: real, change: real)
    requires 0.0 <= r < 1.0 && change == (r - 0.5) * 0.1 * basePrice
    ensures basePrice >= 0.0 ==> -basePrice / 20.0 <= change <= basePrice / 20.0
    ensures basePrice > 0.0 ==> change < basePrice / 20.0
  {
    var d, q := r - 0.5, basePrice / 10.0;
    assert change == d * q;
    if basePrice >= 0.0 {
      assert (0.5 - d) * q >= 0.0 && (d + 0.5) * q >= 0.0;
      if basePrice > 0.0 {
        assert (0.5 - d) * q > 0.0;
      }
    }
  }

  /** A wick `r * 0.02 * basePrice` is non-negative for a non-negative base
      price. */
  lemma WickNonNegative(r: real, basePrice: real, wick: real)
    requires 0.0 <= r && wick == r * 0.02 * basePrice
    ensures basePrice >= 0.0 ==> wick >= 0.0
  {
  }

  /** One step of the generator: the candle opening at `open`, built from
      the four draws `r0..r3`. */
  function NextCandle(i: nat, open: real, basePrice: real, r0: real, r1: real, r2: real, r3: real): (c: CandleData)
    requires 0.0 <= r0 < 1.0 && 0.0 <= r1 < 1.0 && 0.0 <= r2 < 1.0 && 0.0 <= r3 < 1.0
    ensures c.time == DaysAgo(i) && c.open == open
    ensures basePrice >= 0.0 ==> WellFormed(c)
    ensures basePrice >= 0.0 ==> -basePrice / 20.0 <= c.close - open <= basePrice / 20.0
    ensures basePrice > 0.0 ==> c.close - open < basePrice / 20.0
    ensures c.volume.Real? && 500000000.0 <= c.volume.r < 1500000000.0
  {
    var change := (r0 - 0.5) * 0.1 * basePrice;
    var upper := r1 * 0.02 * basePrice;
    var lower := r2 * 0.02 * basePrice;
    ChangeBounds(r0, basePrice, change);
    WickNonNegative(r1, basePrice, upper);
    WickNonNegative(r2, basePrice, lower);
    var close := open + change;
    CandleData(DaysAgo(i), open, Real(r3 * 1000000000.0 + 500000000.0),
               Max(open, close) + upper, Min(open, close) - lower, close)
  }

  /** Candle `k` is the step built from draws `4k` to `4k + 3`. */
  predicate FromDraws(c: CandleData, k: nat, basePrice: real, rand: seq<real>)
  {
    && UnitDraws(rand) && 4 * k + 3 < |rand|
    && c == NextCandle(k, c.open, basePrice, rand[4 * k], rand[4 * k + 1], rand[4 * k + 2], rand[4 * k + 3])
  }

  /** The drift bound: after `k + 1` moves of at most five
      percent each, the close is within `(k + 1) * 5%` of the base price. */
  predicate WithinDrift(c: CandleData, k: nat, basePrice: real)
  {
    Abs(c.close - basePrice) <= (k + 1) as real * basePrice / 20.0
  }

  /** Everything the generator promises about candle `k` on its own. */
  predicate GoodCandle(c: CandleData, k: nat, basePrice: real)
  {
    && c.time == DaysAgo(k)
    && (basePrice >= 0.0 ==> WellFormed(c) && -basePrice / 20.0 <= c.close - c.open <= basePrice / 20.0)
    && (basePrice > 0.0 ==> c.close - c.open < basePrice / 20.0)
    && (basePrice >= 0.0 ==> WithinDrift(c, k, basePrice))
    && c.volume.Real? && 500000000.0 <= c.volume.r < 1500000000.0
  }

  /** One more move of at most five percent widens the drift bound by one
      step. */
  lemma DriftStep(prev: CandleData, c: CandleData, i: nat, basePrice: real)
    requires i > 0 && basePrice >= 0.0 && WithinDrift(prev, i - 1, basePrice)
    requires c.open == prev.close
    requires -basePrice / 20.0 <= c.close - c.open <= basePrice / 20.0
    ensures WithinDrift(c, i, basePrice)
  {
  }

  /** The candles form one walk: the first opens at the base price and each
      later one opens at the previous close. */
  predicate Chained(data: seq<CandleData>, basePrice: real)
  {
    && (|data| > 0 ==> data[0].open == basePrice)
    && forall i :: 0 < i < |data| ==> data[i].open == data[i - 1].close
  }

  /** `generateCandleData`: `count` candles, candle `i` labelled `i` days
      before today and built from draws `4i` to `4i + 3`, chained from the
      base price; each is well formed, moves at most five percent of the base
      price, and has drifted at most `(i + 1) * 5%` from it. */
  method GenerateCandleData(basePrice: real, count: int, rand: seq<real>) returns (data: seq<CandleData>)
    requires UnitDraws(rand)
    requires 4 * count <= |rand|
    ensures |data| == if count <= 0 then 0 else count
    ensures Chained(data, basePrice)
    ensures forall i :: 0 <= i < |data| ==> GoodCandle(data[i], i, basePrice) && FromDraws(data[i], i, basePrice, rand)
  {
    data := [];
    var currentPrice := basePrice;
    var i: nat := 0;
    while i < count
      invariant i <= (if count <= 0 then 0 else count)
      invariant |data| == i
      invariant currentPrice == if i == 0 then basePrice else data[i - 1].close
      invariant Chained(data, basePrice)
      invariant forall k :: 0 <= k < i ==> GoodCandle(data[k], k, basePrice)
      invariant forall k :: 0 <= k < i ==> FromDraws(data[k], k, basePrice, rand)
    {
      var c := NextCandle(i, currentPrice, basePrice, rand[4 * i], rand[4 * i + 1], rand[4 * i + 2], rand[4 * i + 3]);
      if basePrice >= 0.0 {
        if i > 0 {
          DriftStep(data[i - 1], c, i, basePrice);
        }
      }
      data := data + [c];
      currentPrice := c.close;
      i := i + 1;
    }
  }
}
