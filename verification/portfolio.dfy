/** The portfolio simulator (src/components/PortfolioSimulator/index.tsx):
    adding an investment to a holding (merged by coin id), removing a
    holding, and the aggregate statistics shown with the pie chart.
    `parseFloat` of the amount field is not modelled: the parsed number is a
    parameter. Persistence to local storage is left out. */
module Portfolio {
  import opened Common
  import opened Types

  /** The component's state: the holdings, the coin picked in the selector
      and the text of the amount field. */
  datatype SimulatorState = SimulatorState(
    portfolio: seq<PortfolioItem>,
    selectedCoinId: string,
    investmentAmount: string)

  const DefaultAmount := "1000"

  /** The pie-chart palette. */
  const Colors: seq<string> :=
    ["#3b82f6", "#00ff9d", "#8b5cf6", "#fbbf24", "#ff4d4d", "#06b6d4", "#ec4899", "#10b981"]

  /** The amount is divided by the selected coin's price: when that coin is
      quoted, its price is not zero. */
  predicate PriceDivisible(cryptoData: seq<CryptoData>, coinId: string)
  {
    FindCoin(cryptoData, coinId).Some? ==> FindCoin(cryptoData, coinId).value.price != 0.0
  }

  /** No two holdings share a coin id. */
  predicate UniqueCoins(p: seq<PortfolioItem>)
  {
    forall i, j :: 0 <= i < j < |p| ==> p[i].coinId != p[j].coinId
  }

  predicate Holds(p: seq<PortfolioItem>, coinId: string)
  {
    exists k :: 0 <= k < |p| && p[k].coinId == coinId
  }

  /** The initial selection: the first coin's id, or the empty string. */
  function InitialState(stored: seq<PortfolioItem>, cryptoData: seq<CryptoData>): (st: SimulatorState)
    ensures st.portfolio == stored && st.investmentAmount == DefaultAmount
    ensures |cryptoData| > 0 ==> st.selectedCoinId == cryptoData[0].id
    ensures |cryptoData| == 0 ==> st.selectedCoinId == ""
  {
    SimulatorState(stored, if |cryptoData| > 0 then cryptoData[0].id else "", DefaultAmount)
  }

  /** `portfolio.findIndex(p => p.coinId === coinId)`. */
  function FindIndex(p: seq<PortfolioItem>, coinId: string): (k: int)
    ensures -1 <= k < |p|
    ensures k == -1 <==> !Holds(p, coinId)
    ensures k >= 0 ==> p[k].coinId == coinId && forall j :: 0 <= j < k ==> p[j].coinId != coinId
  {
    if |p| == 0 then -1
    else if p[0].coinId == coinId then 0
    else
      var k := FindIndex(p[1..], coinId);
      assert forall j :: 1 <= j < |p| ==> p[j] == p[1..][j - 1];
      if k == -1 then -1 else k + 1
  }

  /** `handleAddToPortfolio` on the holdings: `None` when it returns early
      (amount NaN or not positive, or the coin is not quoted), otherwise the
      new holdings. An already held coin has its first entry topped up; a new
      coin is appended. */
  function AddToPortfolio(p: seq<PortfolioItem>, cryptoData: seq<CryptoData>, coinId: string, amount: Number)
    : (r: Option<seq<PortfolioItem>>)
    requires PriceDivisible(cryptoData, coinId)
    ensures r.None? <==> amount.NaN? || amount.r <= 0.0 || FindCoin(cryptoData, coinId).None?
    ensures r.Some? && Holds(p, coinId) ==>
              var price := FindCoin(cryptoData, coinId).value.price;
              var k := FindIndex(p, coinId);
              && |r.value| == |p|
              && (forall j :: 0 <= j < |p| && j != k ==> r.value[j] == p[j])
              && r.value[k].coinId == coinId
              && r.value[k].amount == p[k].amount + amount.r / price
              && r.value[k].investedValue == p[k].investedValue + amount.r
    ensures r.Some? && !Holds(p, coinId) ==>
              var price := FindCoin(cryptoData, coinId).value.price;
              && |r.value| == |p| + 1
              && r.value[..|p|] == p
              && r.value[|p|] == PortfolioItem(coinId, amount.r / price, amount.r)
    ensures r.Some? ==> (UniqueCoins(p) ==> UniqueCoins(r.value))
  {
    if amount.NaN? || amount.r <= 0.0 then None
    else
      match FindCoin(cryptoData, coinId)
      case None => None
      case Some(coin) =>
        var k := FindIndex(p, coinId);
        if k >= 0 then
          var item := p[k];
          Some(p[k := item.(amount := item.amount + amount.r / coin.price,
                            investedValue := item.investedValue + amount.r)])
        else
          var r := p + [PortfolioItem(coinId, amount.r / coin.price, amount.r)];
          assert r[..|p|] == p;
          Some(r)
  }

  /** The click handler: on success the holdings are replaced and the amount
      field is reset to its default; an early return changes nothing. */
  function HandleAdd(st: SimulatorState, cryptoData: seq<CryptoData>, parsed: Number): (r: SimulatorState)
    requires PriceDivisible(cryptoData, st.selectedCoinId)
    ensures r.selectedCoinId == st.selectedCoinId
    ensures AddToPortfolio(st.portfolio, cryptoData, st.selectedCoinId, parsed).None? ==> r == st
    ensures AddToPortfolio(st.portfolio, cryptoData, st.selectedCoinId, parsed).Some? ==>
              r.portfolio == AddToPortfolio(st.portfolio, cryptoData, st.selectedCoinId, parsed).value
              && r.investmentAmount == DefaultAmount
  {
    match AddToPortfolio(st.portfolio, cryptoData, st.selectedCoinId, parsed)
    case None => st
    case Some(q) => st.(portfolio := q, investmentAmount := DefaultAmount)
  }

  /** `handleRemoveFromPortfolio`: drops every holding of the coin and keeps
      the others, in order. */
  function RemoveFromPortfolio(p: seq<PortfolioItem>, coinId: string): (r: seq<PortfolioItem>)
    ensures !Holds(r, coinId)
    ensures IsSubsequence(r, p)
    ensures forall x: PortfolioItem :: x.coinId != coinId ==> multiset(r)[x] == multiset(p)[x]
    ensures UniqueCoins(p) ==> UniqueCoins(r)
  {
    var keep := (x: PortfolioItem) => x.coinId != coinId;
    var r := Filter(p, keep);
    FilterContents(p, keep);
    assert forall k :: 0 <= k < |r| ==> r[k] in r;
    if UniqueCoins(p) then
      SubsequenceKeepsUnique(r, p);
      r
    else r
  }

  /** A subsequence of holdings with distinct coins has distinct coins. */
  lemma {:induction false} SubsequenceKeepsUnique(r: seq<PortfolioItem>, p: seq<PortfolioItem>)
    requires IsSubsequence(r, p) && UniqueCoins(p)
    ensures UniqueCoins(r)
    decreases |p|
  {
    if |r| > 0 && |p| > 0 {
      assert UniqueCoins(p[1..]) by {
        assert forall i, j :: 0 <= i < j < |p[1..]| ==> p[1..][i] == p[i + 1] && p[1..][j] == p[j + 1];
      }
      if r[0] == p[0] {
        SubsequenceKeepsUnique(r[1..], p[1..]);
        SubsequenceMembers(r[1..], p[1..]);
        forall j | 0 < j < |r|
          ensures r[0].coinId != r[j].coinId
        {
          assert r[j] == r[1..][j - 1];
          assert r[j] in p[1..];
          var m :| 0 <= m < |p[1..]| && p[1..][m] == r[j];
          assert p[m + 1] == r[j];
        }
        assert forall i, j :: 1 <= i < j < |r| ==> r[i] == r[1..][i - 1] && r[j] == r[1..][j - 1];
      } else {
        SubsequenceKeepsUnique(r, p[1..]);
      }
    }
  }

  /** Adding a coin not yet held and then removing it restores the
      holdings. */
  lemma AddThenRemove(p: seq<PortfolioItem>, cryptoData: seq<CryptoData>, coinId: string, amount: Number)
    requires PriceDivisible(cryptoData, coinId)
    requires !Holds(p, coinId)
    requires AddToPortfolio(p, cryptoData, coinId, amount).Some?
    ensures RemoveFromPortfolio(AddToPortfolio(p, cryptoData, coinId, amount).value, coinId) == p
  {
    var q := AddToPortfolio(p, cryptoData, coinId, amount).value;
    var keep := (x: PortfolioItem) => x.coinId != coinId;
    assert q == p + [q[|p|]];
    FilterAppend(p, [q[|p|]], keep);
    FilterAll(p, keep);
    FilterSingleton(q[|p|], keep);
  }

  // ----- statistics -----

  /** One slice of the pie chart. */
  datatype Holding = Holding(name: string, value: real, percentage: real, color: string)

  datatype PortfolioStats = PortfolioStats(
    totalInvested: real,
    totalCurrent: real,
    profitLoss: real,
    profitLossPercentage: real,
    holdings: seq<Holding>)

  /** The `forEach` callback returns early for a holding whose coin is not
      quoted. */
  predicate Quoted(item: PortfolioItem, cryptoData: seq<CryptoData>)
  {
    FindCoin(cryptoData, item.coinId).Some?
  }

  /** The holdings the statistics see: those whose coin is quoted, in
      portfolio order. */
  function QuotedItems(p: seq<PortfolioItem>, cryptoData: seq<CryptoData>): (r: seq<PortfolioItem>)
    ensures forall x :: x in r <==> x in p && Quoted(x, cryptoData)
    ensures IsSubsequence(r, p)
  {
    var quoted := (x: PortfolioItem) => Quoted(x, cryptoData);
    FilterContents(p, quoted);
    Filter(p, quoted)
  }

  /** The portfolio indices, from `i` on, of the quoted holdings. */
  function QuotedPositions(p: seq<PortfolioItem>, cryptoData: seq<CryptoData>, i: nat): seq<nat>
    requires i <= |p|
  {
    IndicesFrom(p, (x: PortfolioItem) => Quoted(x, cryptoData), i)
  }

  function InvestedOf(item: PortfolioItem): real
  {
    item.investedValue
  }

  /** The `totalInvested` accumulator: the invested values of the quoted
      holdings, added up as the `forEach` visits them. */
  function TotalInvested(p: seq<PortfolioItem>, cryptoData: seq<CryptoData>): real
  {
    if |p| == 0 then 0.0
    else
      var rest := TotalInvested(p[1..], cryptoData);
      if Quoted(p[0], cryptoData) then p[0].investedValue + rest else rest
  }

  /** The accumulated invested total is the sum of the invested values of
      the quoted holdings. */
  lemma {:induction false} TotalInvestedSum(p: seq<PortfolioItem>, cryptoData: seq<CryptoData>)
    ensures TotalInvested(p, cryptoData) == Sum(QuotedItems(p, cryptoData), InvestedOf)
  {
    if |p| > 0 {
      TotalInvestedSum(p[1..], cryptoData);
      if Quoted(p[0], cryptoData) {
        assert ([p[0]] + QuotedItems(p[1..], cryptoData))[1..] == QuotedItems(p[1..], cryptoData);
      }
    }
  }

  /** The current value of one holding: amount times price, or 0 when its
      coin is not quoted. */
  function CurrentValue(item: PortfolioItem, cryptoData: seq<CryptoData>): real
  {
    match FindCoin(cryptoData, item.coinId)
    case Some(coin) => item.amount * coin.price
    case None => 0.0
  }

  /** The `totalCurrent` accumulator: the current values of the quoted
      holdings, added up as the `forEach` visits them. */
  function TotalCurrent(p: seq<PortfolioItem>, cryptoData: seq<CryptoData>): real
  {
    if |p| == 0 then 0.0 else CurrentValue(p[0], cryptoData) + TotalCurrent(p[1..], cryptoData)
  }

  /** The accumulated current total is the sum of amount times price over
      the quoted holdings. */
  lemma {:induction false} TotalCurrentSum(p: seq<PortfolioItem>, cryptoData: seq<CryptoData>)
    ensures TotalCurrent(p, cryptoData) == Sum(QuotedItems(p, cryptoData), (x: PortfolioItem) => CurrentValue(x, cryptoData))
  {
    if |p| > 0 {
      TotalCurrentSum(p[1..], cryptoData);
      if Quoted(p[0], cryptoData) {
        assert ([p[0]] + QuotedItems(p[1..], cryptoData))[1..] == QuotedItems(p[1..], cryptoData);
      }
    }
  }

  function ValueOf(h: Holding): real
  {
    h.value
  }

  function PercentageOf(h: Holding): real
  {
    h.percentage
  }

  /** The slice `h` shows the holding `item`, found at `position` in the
      portfolio: the coin's symbol, the holding's current value, and the
      palette colour of that position. */
  predicate ShowsHolding(h: Holding, item: PortfolioItem, cryptoData: seq<CryptoData>, position: nat)
  {
    match FindCoin(cryptoData, item.coinId)
    case Some(coin) =>
      h.name == coin.symbol && h.value == CurrentValue(item, cryptoData) && h.color == Colors[position % |Colors|]
    case None => false
  }

  /** The `forEach` pass from portfolio index `i` on: one slice per quoted
      holding, with the coin's symbol, its current value and the palette
      colour of the holding's index in the portfolio (skipped holdings still
      use up an index). */
  function Slices(p: seq<PortfolioItem>, cryptoData: seq<CryptoData>, i: nat): (hs: seq<Holding>)
    requires i <= |p|
    ensures |hs| == |QuotedPositions(p, cryptoData, i)|
    ensures forall k :: 0 <= k < |hs| ==>
              var j := QuotedPositions(p, cryptoData, i)[k];
              ShowsHolding(hs[k], p[j], cryptoData, j) && hs[k].percentage == 0.0
    decreases |p| - i
  {
    if i == |p| then []
    else
      var rest := Slices(p, cryptoData, i + 1);
      match FindCoin(cryptoData, p[i].coinId)
      case Some(coin) =>
        var h := Holding(coin.symbol, CurrentValue(p[i], cryptoData), 0.0, Colors[i % |Colors|]);
        assert ([h] + rest)[1..] == rest;
        [h] + rest
      case None => rest
  }

  /** The slice values add up to the current total. */
  lemma {:induction false} SlicesSum(p: seq<PortfolioItem>, cryptoData: seq<CryptoData>, i: nat)
    requires i <= |p|
    ensures Sum(Slices(p, cryptoData, i), ValueOf) == TotalCurrent(p[i..], cryptoData)
    decreases |p| - i
  {
    if i < |p| {
      SlicesSum(p, cryptoData, i + 1);
      assert p[i..][1..] == p[i + 1..];
      var hs := Slices(p, cryptoData, i);
      if Quoted(p[i], cryptoData) {
        assert hs[1..] == Slices(p, cryptoData, i + 1);
      }
    }
  }

  /** `pct` is `value`'s share of `total`, in percent. */
  predicate IsShare(pct: real, value: real, total: real)
  {
    pct * total == value * 100.0
  }

  /** `part / whole * 100`, or 0 when `whole` is not positive. */
  function Percent(part: real, whole: real): (pct: real)
    ensures whole > 0.0 ==> IsShare(pct, part, whole)
    ensures whole <= 0.0 ==> pct == 0.0
  {
    if whole > 0.0 then (part / whole) * 100.0 else 0.0
  }

  /** The second pass: each slice's share of the current total, in percent,
      or 0 when the total is not positive. */
  function WithPercentages(hs: seq<Holding>, totalCurrent: real): (r: seq<Holding>)
    ensures |r| == |hs|
    ensures forall k :: 0 <= k < |hs| ==> r[k] == hs[k].(percentage := r[k].percentage)
    ensures totalCurrent <= 0.0 ==> forall k :: 0 <= k < |r| ==> r[k].percentage == 0.0
    ensures totalCurrent > 0.0 ==> forall k :: 0 <= k < |r| ==> IsShare(r[k].percentage, hs[k].value, totalCurrent)
    ensures totalCurrent > 0.0 ==> IsShare(Sum(r, PercentageOf), Sum(hs, ValueOf), totalCurrent)
  {
    if |hs| == 0 then []
    else
      var h := hs[0];
      var pct := Percent(h.value, totalCurrent);
      var rest := WithPercentages(hs[1..], totalCurrent);
      var r := [h.(percentage := pct)] + rest;
      assert r[1..] == rest;
      if totalCurrent > 0.0 then
        PercentShare(h.value, totalCurrent, pct, Sum(rest, PercentageOf), Sum(hs[1..], ValueOf));
        r
      else r
  }

  /** Shares of one total add up. */
  lemma PercentShare(v: real, t: real, pct: real, restPct: real, restValues: real)
    requires IsShare(pct, v, t) && IsShare(restPct, restValues, t)
    ensures IsShare(pct + restPct, v + restValues, t)
  {
  }

  /** Cancelling a positive factor: the share of the whole total is 100. */
  lemma CancelPositive(pct: real, t: real)
    requires t > 0.0 && IsShare(pct, t, t)
    ensures pct == 100.0
  {
  }

  /** The memoised `portfolioStats`. */
  function Stats(p: seq<PortfolioItem>, cryptoData: seq<CryptoData>): (s: PortfolioStats)
    ensures s.totalInvested == TotalInvested(p, cryptoData)
    ensures s.totalCurrent == TotalCurrent(p, cryptoData)
    ensures |s.holdings| == |QuotedPositions(p, cryptoData, 0)|
    ensures forall k :: 0 <= k < |s.holdings| ==>
              var j := QuotedPositions(p, cryptoData, 0)[k];
              ShowsHolding(s.holdings[k], p[j], cryptoData, j)
    ensures s.totalCurrent > 0.0 ==>
              forall k :: 0 <= k < |s.holdings| ==> IsShare(s.holdings[k].percentage, s.holdings[k].value, s.totalCurrent)
    ensures s.totalCurrent <= 0.0 ==> forall k :: 0 <= k < |s.holdings| ==> s.holdings[k].percentage == 0.0
    ensures Sum(s.holdings, ValueOf) == s.totalCurrent
    ensures s.totalCurrent > 0.0 ==> Sum(s.holdings, PercentageOf) == 100.0
    ensures s.profitLoss == s.totalCurrent - s.totalInvested
    ensures s.totalInvested <= 0.0 ==> s.profitLossPercentage == 0.0
    ensures s.totalInvested > 0.0 ==> IsShare(s.profitLossPercentage, s.profitLoss, s.totalInvested)
  {
    var totalInvested := TotalInvested(p, cryptoData);
    var totalCurrent := TotalCurrent(p, cryptoData);
    var slices := Slices(p, cryptoData, 0);
    assert p[0..] == p;
    SlicesSum(p, cryptoData, 0);
    var holdings := WithPercentages(slices, totalCurrent);
    SumValuesUnchanged(slices, holdings);
    assert forall k :: 0 <= k < |holdings| ==> holdings[k] == slices[k].(percentage := holdings[k].percentage);
    assert totalCurrent > 0.0 ==> Sum(holdings, PercentageOf) == 100.0 by {
      if totalCurrent > 0.0 {
        CancelPositive(Sum(holdings, PercentageOf), totalCurrent);
      }
    }
    var profitLoss := totalCurrent - totalInvested;
    PortfolioStats(totalInvested, totalCurrent, profitLoss, Percent(profitLoss, totalInvested), holdings)
  }

  /** Setting percentages does not change the values. */
  lemma {:induction false} SumValuesUnchanged(hs: seq<Holding>, r: seq<Holding>)
    requires |r| == |hs|
    requires forall k :: 0 <= k < |hs| ==> r[k] == hs[k].(percentage := r[k].percentage)
    ensures Sum(r, ValueOf) == Sum(hs, ValueOf)
  {
    if |hs| > 0 {
      SumValuesUnchanged(hs[1..], r[1..]);
    }
  }

  /** A successful add raises both totals by the amount invested: the new
      coins are worth exactly what was paid for them. */
  lemma {:induction false} AddRaisesTotals(p: seq<PortfolioItem>, cryptoData: seq<CryptoData>, coinId: string, amount: Number)
    requires PriceDivisible(cryptoData, coinId)
    requires AddToPortfolio(p, cryptoData, coinId, amount).Some?
    ensures var q := AddToPortfolio(p, cryptoData, coinId, amount).value;
      && TotalInvested(q, cryptoData) == TotalInvested(p, cryptoData) + amount.r
      && TotalCurrent(q, cryptoData) == TotalCurrent(p, cryptoData) + amount.r
  {
    var q := AddToPortfolio(p, cryptoData, coinId, amount).value;
    var coin := FindCoin(cryptoData, coinId).value;
    if Holds(p, coinId) {
      var k := FindIndex(p, coinId);
      InvestedUpdateAt(p, q, cryptoData, k, amount.r);
      CurrentUpdateAt(p, q, cryptoData, k, amount.r, coin);
    } else {
      var x := q[|p|];
      assert q == p + [x];
      TotalsAppend(p, x, cryptoData);
      assert (amount.r / coin.price) * coin.price == amount.r;
    }
  }

  /** Totals after appending one holding. */
  lemma {:induction false} TotalsAppend(p: seq<PortfolioItem>, x: PortfolioItem, cryptoData: seq<CryptoData>)
    ensures TotalInvested(p + [x], cryptoData)
            == TotalInvested(p, cryptoData) + TotalInvested([x], cryptoData)
    ensures TotalCurrent(p + [x], cryptoData)
            == TotalCurrent(p, cryptoData) + TotalCurrent([x], cryptoData)
  {
    if |p| > 0 {
      assert (p + [x])[1..] == p[1..] + [x];
      TotalsAppend(p[1..], x, cryptoData);
    } else {
      assert p + [x] == [x];
    }
  }

  /** The invested total after adding `a` to the quoted holding at index
      `k`. */
  lemma {:induction false} InvestedUpdateAt(p: seq<PortfolioItem>, q: seq<PortfolioItem>, cryptoData: seq<CryptoData>,
                                            k: nat, a: real)
    requires k < |p| == |q|
    requires FindCoin(cryptoData, p[k].coinId).Some?
    requires forall j :: 0 <= j < |p| && j != k ==> q[j] == p[j]
    requires q[k].coinId == p[k].coinId && q[k].investedValue == p[k].investedValue + a
    ensures TotalInvested(q, cryptoData) == TotalInvested(p, cryptoData) + a
  {
    if k == 0 {
      assert q[1..] == p[1..];
    } else {
      assert q[0] == p[0];
      InvestedUpdateAt(p[1..], q[1..], cryptoData, k - 1, a);
    }
  }

  /** The current total after buying `a` dollars' worth of the holding at
      index `k`, whose coin is quoted as `coin`. */
  lemma {:induction false} CurrentUpdateAt(p: seq<PortfolioItem>, q: seq<PortfolioItem>, cryptoData: seq<CryptoData>,
                                           k: nat, a: real, coin: CryptoData)
    requires k < |p| == |q| && coin.price != 0.0
    requires FindCoin(cryptoData, p[k].coinId) == Some(coin)
    requires forall j :: 0 <= j < |p| && j != k ==> q[j] == p[j]
    requires q[k].coinId == p[k].coinId && q[k].amount == p[k].amount + a / coin.price
    ensures TotalCurrent(q, cryptoData) == TotalCurrent(p, cryptoData) + a
  {
    if k == 0 {
      assert q[1..] == p[1..];
      CurrentValueTopUp(p[0], q[0], cryptoData, a, coin);
    } else {
      assert q[0] == p[0];
      CurrentUpdateAt(p[1..], q[1..], cryptoData, k - 1, a, coin);
    }
  }

  /** Topping up a quoted holding by `a` dollars raises its value by `a`. */
  lemma CurrentValueTopUp(x: PortfolioItem, y: PortfolioItem, cryptoData: seq<CryptoData>, a: real, coin: CryptoData)
    requires coin.price != 0.0 && FindCoin(cryptoData, x.coinId) == Some(coin)
    requires y.coinId == x.coinId && y.amount == x.amount + a / coin.price
    ensures CurrentValue(y, cryptoData) == CurrentValue(x, cryptoData) + a
  {
  }
}
