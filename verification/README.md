# coin-track core in Dafny

A Dafny model of the data logic behind the coin-track dashboard: the price
chart's series preparation, the portfolio simulator, the sortable market
table, the watchlist search, the mock market data and candle generator, and
the display formatters. Each operation is a pure function (the candle
generator is a method with a loop) whose contract states what the component
promises, and lemmas relate operations to their inverses, invariants and
reference definitions.

Layout, one module per file:

- `common.dfy` (`Common`): JavaScript values the components distinguish
  (`Option`, a `Number` that may be NaN; the formatters, which also accept
  `undefined` and `null`, have their own `JsNumber`) and the array and string
  operations they use, each defined once: `filter`, `slice(0, n)`,
  `includes`, ASCII `toLowerCase`, the indices a `filter` keeps, and sums.
- `types.dfy` (`Types`): the records of `src/types/crypto.ts` and
  `Array.prototype.find` by coin id.
- `formatter.dfy` (`Formatter`): `formatPrice`, `formatLargeNumber`,
  `formatPercentage`. A formatter returns pieces (literal text, or a number
  to be rendered by `toLocaleString` or `toFixed`); the two digit renderers
  are parameters of `Render`. The text properties hold for any renderer,
  except two that assume something of the renderers:
  `PercentageText` assumes `toFixed` never starts with `+`, and
  `LargeNumberCorrectedSingleDollar` assumes neither renderer starts with `$`.
- `mock_data.dfy` (`MockData`): the fixed ten-coin list and the random-walk
  candle generator, with `Math.random` replaced by a sequence of draws in
  [0, 1), four per candle.
- `main_chart.dfy` (`MainChart`): the memoised transform from candles to
  display points, volume bars, y-axis domain and x-axis padding.
- `portfolio.dfy` (`Portfolio`): adding an investment, removing a holding,
  and the portfolio statistics.
- `crypto_table.dfy` (`CryptoTable`): the sort state machine, the
  comparator, the stable sort and the header icon.
- `watchlist.dfy` (`Watchlist`): the watchlist rows, the search (case
  insensitive, at most five results) and the search box state.

## Model

| member | source | states |
|---|---|---|
| Common.Filter | src/components/Watchlist/index.tsx:25 | `filter` keeps only elements satisfying the predicate and never lengthens |
| Common.FilterContents | src/components/Watchlist/index.tsx:25 | `filter` keeps exactly the satisfying elements, each with its multiplicity, in order |
| Common.Take | src/components/Watchlist/index.tsx:31 | `slice(0, n)` is the prefix of length `n`, or the whole array when it is shorter |
| Common.Includes | src/components/Watchlist/index.tsx:29-30 | `includes` holds exactly when the needle occurs at some index |
| Common.ToLower | src/components/Watchlist/index.tsx:29-30 | `toLowerCase` keeps the length and lowers each ASCII letter |
| Common.IndicesFrom | src/components/PortfolioSimulator/index.tsx:59-61 | the indices of the elements kept, increasing, every satisfying index listed |
| Types.FindCoin | src/components/PortfolioSimulator/index.tsx:26 | `find` by id: `None` exactly when no coin has the id; otherwise a coin with that id, the first one in the list |
| Formatter.FormatPrice | src/utils/Formatter.ts:2-24 | the text starts with `$`; a finite price gives the literal `$` followed by exactly one rendered number, equal to the price; undefined, null and NaN give a single literal |
| Formatter.PriceText | src/utils/Formatter.ts:4-6 | for any digit renderer the text starts with `$`, and a missing or NaN price reads `$0.00` |
| Formatter.PriceTiers | src/utils/Formatter.ts:8-23 | no decimals exactly from 1000 up, two locale decimals exactly on [1, 1000), four fixed places exactly below 1 |
| Formatter.FormatLargeNumber | src/utils/Formatter.ts:26-35 | starts with `$`; a single literal `$0` exactly for undefined, null and NaN; below one million exactly `$` followed by `formatPrice`'s output; from one million up the literal `$` is followed by the amount with two fixed places as a mantissa of at least 1, below 1000 when under a trillion |
| Formatter.LargeNumberText | src/utils/Formatter.ts:26-35 | for any digit renderer the text starts with `$`, and a missing, null or NaN amount reads `$0` |
| Formatter.LargeNumberScale | src/utils/Formatter.ts:31-34 | exactly one number is rendered, and that number times the unit named by the suffix is the amount; the suffix is T, B or M exactly on the matching range |
| Formatter.LargeNumberDoubleDollar | src/utils/Formatter.ts:34 | as written, every finite amount below one million renders with two leading dollar signs |
| Formatter.FormatLargeNumberCorrected | src/utils/Formatter.ts:26-35 | corrected formatter: below one million it is exactly `formatPrice`; for every other input it equals the formatter as written |
| Formatter.LargeNumberCorrectedSingleDollar | src/utils/Formatter.ts:26-35 | with renderers that never start with `$`, the corrected text has exactly one leading dollar sign for every input |
| Formatter.FormatPercentage | src/utils/Formatter.ts:37-44 | ends in `%`; a finite change is rendered with two fixed places, preceded by `+` exactly when it is not negative and by nothing otherwise, and followed by a bare `%` |
| Formatter.PercentageText | src/utils/Formatter.ts:37-44 | the text ends in `%`, starts with `+` exactly for a non-negative number, and reads `0.00%` for a missing or NaN change |
| MockData.MockCoin | src/utils/MockData.ts:5-144 | coin `k` has rank `k + 1`, a positive price, and the id of entry `k` |
| MockData.MockCryptoData | src/utils/MockData.ts:3-146 | ten coins, ranked 1 to 10 in order, with pairwise distinct ids and positive prices |
| MockData.ChangeBounds | src/utils/MockData.ts:163 | a move drawn from [0, 1) stays within five percent of a non-negative base price, strictly below it for a positive one |
| MockData.NextCandle | src/utils/MockData.ts:162-176 | one candle: opens at the given price, its wicks enclose open and close, its move is within five percent, its volume lies in [5e8, 1.5e9) |
| MockData.DriftStep | src/utils/MockData.ts:162-178 | after `i + 1` chained moves of at most five percent, the close is within `(i + 1) * 5%` of the base price |
| MockData.GenerateCandleData | src/utils/MockData.ts:148-182 | `count` candles (none for a count of 0 or less), candle `i` dated `i` days back, the first opening at the base price, each opening at the previous close, each built from its own four draws, well formed, and drifting at most five percent per step |
| MainChart.MinClose | src/components/MainChart/index.tsx:67 | a close that no close is below |
| MainChart.MaxClose | src/components/MainChart/index.tsx:68 | a close that no close is above |
| MainChart.VolumeOrZero | src/components/MainChart/index.tsx:126 | the falsy-to-zero volume: a number is kept, NaN becomes 0, and the result is 0 exactly for NaN or a zero volume |
| MainChart.ToPoint | src/components/MainChart/index.tsx:116-128 | the display point shows its candle: the close as price, value and close, the other prices and the time copied, the volume or 0, and `isUp` exactly when the close is at or above the open |
| MainChart.ToVolumeBar | src/components/MainChart/index.tsx:132-136 | the bar keeps its point; blue at 0.7 exactly for a rising point, light blue at 0.5 exactly otherwise |
| MainChart.PaddedDomain | src/components/MainChart/index.tsx:66-70 | a domain containing every close, whose ends are a lowest and a highest close, each widened by five percent of their distance |
| MainChart.ProcessChartData | src/components/MainChart/index.tsx:55-147 | an empty series gives automatic bounds and padding 20; otherwise one point and one volume bar per candle, each point showing its candle, the padded domain of the closes, and padding 30 above ten candles and 40 up to ten |
| MainChart.PointsRecoverCandles | src/components/MainChart/index.tsx:116-128 | every candle is recovered from its display point, except that a falsy volume reads back as 0 |
| MainChart.FlatSeriesDomain | src/components/MainChart/index.tsx:66-70 | when all closes are equal the domain collapses to that price |
| MainChart.VolumeBarStyle | src/components/MainChart/index.tsx:132-136 | a bar is blue at opacity 0.7 exactly when its candle closed at or above its open, light blue at 0.5 exactly otherwise |
| Portfolio.InitialState | src/components/PortfolioSimulator/index.tsx:12-16 | the stored holdings, the first coin selected (or none), and the default amount 1000 |
| Portfolio.FindIndex | src/components/PortfolioSimulator/index.tsx:29 | -1 exactly when no holding has the coin; otherwise the first holding with it |
| Portfolio.AddToPortfolio | src/components/PortfolioSimulator/index.tsx:22-45 | for a selected coin with a non-zero price: no change exactly for a NaN or non-positive amount or an unquoted coin; a held coin has its first holding topped up by `amount / price` coins and `amount` dollars, others untouched; a new coin is appended; distinct coins stay distinct |
| Portfolio.HandleAdd | src/components/PortfolioSimulator/index.tsx:22-48 | an early return changes nothing; a successful add replaces the holdings by the result of the add and resets the amount field to 1000 |
| Portfolio.RemoveFromPortfolio | src/components/PortfolioSimulator/index.tsx:50-52 | no holding of the coin remains, every other holding is kept with its multiplicity and in order, and distinct coins stay distinct |
| Portfolio.SubsequenceKeepsUnique | src/components/PortfolioSimulator/index.tsx:51 | removing holdings cannot create two holdings of one coin |
| Portfolio.AddThenRemove | src/components/PortfolioSimulator/index.tsx:39-52 | adding a coin not held and then removing it restores the holdings |
| Portfolio.Slices | src/components/PortfolioSimulator/index.tsx:59-73 | one slice per quoted holding, in portfolio order: the `k`-th shows the `k`-th quoted holding's coin symbol, its amount times price, and the palette colour of its portfolio index; all percentages still 0 |
| Portfolio.WithPercentages | src/components/PortfolioSimulator/index.tsx:75-77 | only percentages change; with a positive total each slice's percentage is its value's share of the total, and so are their sums; otherwise they are all 0 |
| Portfolio.Stats | src/components/PortfolioSimulator/index.tsx:54-89 | the totals, one slice per quoted holding showing that holding (symbol, amount times price, colour of its index) with its share of the current total, values summing to the current total and whose percentages sum to 100 when the total is positive, profit and loss as current minus invested, and its percentage of the invested total (0 when nothing is invested) |
| Portfolio.TotalInvestedSum | src/components/PortfolioSimulator/index.tsx:59-64 | the accumulated invested total is the sum of the invested values of exactly the holdings whose coin is quoted |
| Portfolio.TotalCurrentSum | src/components/PortfolioSimulator/index.tsx:59-65 | the accumulated current total is the sum of amount times price over exactly the holdings whose coin is quoted |
| Portfolio.SlicesSum | src/components/PortfolioSimulator/index.tsx:59-73 | the slice values add up to the current total |
| Portfolio.AddRaisesTotals | src/components/PortfolioSimulator/index.tsx:22-45 | a successful add raises both the invested and the current total by exactly the amount |
| CryptoTable.HandleSort | src/components/CryptoTable/index.tsx:17-24 | the clicked column becomes the sort key; the direction flips on the same column and resets to ascending on another |
| CryptoTable.HandleSortTwice | src/components/CryptoTable/index.tsx:17-24 | clicking the current column twice restores the state |
| CryptoTable.HandleSortNewColumnTwice | src/components/CryptoTable/index.tsx:17-24 | clicking a new column twice sorts it descending |
| CryptoTable.InitialIcons | src/components/CryptoTable/index.tsx:14-15 | the table starts sorted by rank ascending: the up arrow exactly on the rank header, the neutral icon exactly on the others |
| CryptoTable.SortIconFor | src/components/CryptoTable/index.tsx:47-54 | the neutral icon exactly for other columns, the up arrow exactly for the ascending sort column, the down arrow exactly for the descending one |
| CryptoTable.LexCompare | src/components/CryptoTable/index.tsx:33-34 | a three-way comparison that is 0 exactly for equal names |
| CryptoTable.LexAntisymmetric | src/components/CryptoTable/index.tsx:32-34 | swapping the names negates the comparison |
| CryptoTable.LexTransitive | src/components/CryptoTable/index.tsx:32-34 | the name order is transitive |
| CryptoTable.Compare | src/components/CryptoTable/index.tsx:27-42 | for the name column the comparator is 0 exactly for equal names; for a numeric column it is at most 0 exactly when the first row's value is at most the second's ascending, at least it descending |
| CryptoTable.CompareAntisymmetric | src/components/CryptoTable/index.tsx:27-42 | the comparator is antisymmetric for every key and direction |
| CryptoTable.CompareTransitive | src/components/CryptoTable/index.tsx:27-42 | "may come first" is transitive for every key and direction |
| CryptoTable.InsertPermutes | src/components/CryptoTable/index.tsx:27 | one insertion step adds exactly the inserted row |
| CryptoTable.InsertSorted | src/components/CryptoTable/index.tsx:27 | one insertion step keeps the rows in comparator order |
| CryptoTable.InsertStable | src/components/CryptoTable/index.tsx:27 | one insertion step places the new row after the rows it ties with |
| CryptoTable.SortBy | src/components/CryptoTable/index.tsx:27-42 | the sort result is in comparator order, a permutation of its input, and keeps tied rows in input order |
| CryptoTable.SortedData | src/components/CryptoTable/index.tsx:26-45 | a sorted, stable permutation of the rows |
| CryptoTable.NumericOrder | src/components/CryptoTable/index.tsx:37-39 | a numeric column is non-decreasing ascending and non-increasing descending |
| CryptoTable.NameOrder | src/components/CryptoTable/index.tsx:31-35 | the name column follows the name order, reversed when descending |
| Watchlist.WatchlistCoins | src/components/Watchlist/index.tsx:25 | exactly the coins whose id is on the watchlist, each with its multiplicity, in market order |
| Watchlist.Candidates | src/components/Watchlist/index.tsx:27-30 | exactly the unwatched coins matching the term, each with its multiplicity, in market order |
| Watchlist.SearchResults | src/components/Watchlist/index.tsx:27-31 | the first five candidates, or all of them when there are fewer: a prefix of the candidates of length `min(5, count)`, hence at most five coins, none watched, each matching the term in name or symbol ignoring case, in market order; fewer than five means every candidate is shown |
| Watchlist.WatchedNeverOffered | src/components/Watchlist/index.tsx:25-31 | no coin is both on the watchlist and among the search results |
| Watchlist.EmptyTermMatches | src/components/Watchlist/index.tsx:29-30 | an empty term matches every coin |
| Watchlist.SearchIgnoresCase | src/components/Watchlist/index.tsx:29-30 | a term and its lower-case form give the same results |
| Watchlist.ToggleSearch | src/components/Watchlist/index.tsx:41 | the search button flips whether the box is open and keeps the term |
| Watchlist.ToggleTwice | src/components/Watchlist/index.tsx:41 | toggling twice restores the box |
| Watchlist.EditTerm | src/components/Watchlist/index.tsx:55 | typing replaces the term and leaves the box open or closed |
| Watchlist.ClearTerm | src/components/Watchlist/index.tsx:59-66 | the clear button, shown only for an open box with a term, empties the term, keeps the box open and hides itself |
| Watchlist.VisibleResults | src/components/Watchlist/index.tsx:70 | nothing is shown in a closed box or for an empty term; in an open box with a term the search results are shown |
| Watchlist.PickResult | src/components/Watchlist/index.tsx:75-79 | a click hands on the id of the clicked result, a quoted, unwatched, matching coin, clears the term and closes the box |
| Watchlist.PickedCoinMoves | src/components/Watchlist/index.tsx:75-79 | once the picked id is appended to the watchlist, the coin is a watchlist row and no search offers it |

## Left out

- Rendering, styling, icons, tooltips and all JSX; the `date` label of a display point (time-frame dependent date formatting) and `formatDate` / `formatDateTime`.
- The market API client, local-storage persistence and the application wiring: the stored portfolio is a parameter of `InitialState`, and adding or removing a watchlist coin is a callback of the parent whose only modelled part is the id handed on.
- Candle bucketing or aggregation by time frame: no such code is part of this model.
- Floating point: numbers are exact reals, so rounding, overflow to Infinity and the digits `toLocaleString` and `toFixed` produce are not modelled; the renderers are parameters.
- `parseFloat` of the amount field: the parsed number (possibly NaN) is a parameter of `HandleAdd`.
- `localeCompare` is modelled as lexicographic order on character codes, and `toLowerCase` as ASCII lower-casing; locale collation and Unicode case mapping are not modelled.
- Portfolio.AddToPortfolio: requires the selected coin's price, when that coin is quoted, to be non-zero, because dividing by zero gives Infinity, which the real-number model does not have. Portfolio.HandleAdd, Portfolio.AddThenRemove and Portfolio.AddRaisesTotals carry the same condition.
- MockData.GenerateCandleData: `count` is an integer (a fractional count is not modelled), the date label is the day offset rather than locale text, and the bounds on wicks and moves are stated for a non-negative base price only.
- MainChart.ProcessChartData: a null, undefined or NaN volume is represented as `NaN` of `Number` and shown as 0; a zero volume is kept as 0, which is also what `|| 0` gives.
- The `logo` field the watchlist renders does not exist on the coin record and is not modelled.

## Findings

| source | as written | input that shows it | evidently intended | confidence | as-written member | corrected member |
|---|---|---|---|---|---|---|
| src/utils/Formatter.ts:34 | below one million, `formatLargeNumber` prefixes `$` to `formatPrice`, which already starts with `$` | 500 gives `$$500.00` | a single dollar sign, i.e. the result of `formatPrice` alone | not executed | Formatter.LargeNumberDoubleDollar | Formatter.LargeNumberCorrectedSingleDollar |
