# Portfolio aggregation engine of crypto-tracker

A Dafny model of the portfolio aggregation engine in `script.js`. The model covers four parts:

- **The accumulation loop of `calculateHoldingsAndChartData`.** One pass over the trade ledger. It sums `totalValue` and fills three dictionaries:
  - `dailyTotals`, mapping each date to the current value of that day's trades;
  - `coinDaily`, mapping each upper-case symbol to its own date-to-value map;
  - `holdingsMap`, grouping the trades' lots by the coin's literal spelling.
- **The per-holding numbers and alert of `drawHoldingsTable`.** These are total amount, amount invested, current price, value, profit, and the alert against the static `alertThresholds` table.
- **The label and data extraction of `drawChart`.** The chosen bucket's keys are sorted into labels, and each label gets the bucket's value.
- **The `alertThresholds` table.** This is the static input to the alert.

Modules:

- `Ledger` (`ledger.dfy`): trade records, ASCII upper-casing of symbols, and the price lookup (`currentPrices[upper] || 0`).
- `Sums` (`sums.dfy`): sums over a duplicate-free listing of keys. A dictionary has no order of its own, so "the sum over all dates" is stated over any sequence that lists each key once, as `Object.keys` does.
- `Alerts` (`alerts.dfy`): the threshold table and the three-way classification.
- `Aggregation` (`aggregation.dfy`): the outputs are specified declaratively, from the trades they collect. Then the loop is a method, with the loop body as its own method (`ProcessTrade`). It is proved to build exactly the specified dictionaries and total. Reconciliation lemmas relate the outputs to each other.
- `Holdings` (`holdings.dfy`): one row of the holdings table per group of `holdingsMap`.
- `StringOrder` (`string_order.dfy`): the default string order of `Array.prototype.sort`, an insertion sort by it, and the proof that sorting a dictionary's keys gives the one strictly ascending listing of them.
- `Chart` (`chart.dfy`): the labels and data of the chart.

Numbers are `real`. Prices and trades are inputs: the live price snapshot is a `map<string, real>` keyed by upper-case symbol, and the ledger is a `seq<Trade>`. The loop's `if (!x[k]) x[k] = 0` resets are modelled as written (an absent entry and an entry equal to 0 are both falsy). For real numbers the reset changes nothing that matters: adding to a zero entry and adding to a fresh zero give the same result.

The engine is often described as a pure function of the ledger and the price snapshot. In the code it is a loop that updates three local dictionaries in place, and the model follows the code: `CalculateHoldingsAndChartData` is a method with a loop, proved equal to the pure specification functions. Holdings are grouped by the literal spelling of the coin while prices, thresholds and `coinDaily` use the upper-cased symbol; the model keeps that split as written. Chart labels are sorted as strings, which is chronological only for a fixed-width date format such as `YYYY-MM-DD`; the model proves the string order and assumes no date format.

A coin spelled, say, `"all"` has the canonical symbol `"ALL"`, and `drawChart("ALL", …)` then charts the daily totals instead of that coin. The model keeps this, because `SelectBucket` tests the kind before looking up `perCoin`.

## Model

| member | source | states |
|---|---|---|
| Ledger.Upper | script.js:99 | the canonical symbol has the coin's length and is the coin with each ASCII lower-case letter upper-cased |
| Ledger.UpperIdempotent | script.js:99 | upper-casing a canonical symbol leaves it unchanged |
| Ledger.CaseVariantsShareSymbol | script.js:99 | "xrp", "XRP" and "Xrp" share the canonical symbol "XRP" |
| Ledger.PriceOf | script.js:100 | the current price is the snapshot's price of the canonical symbol, 0 when the symbol is absent, and never negative for a non-negative snapshot |
| Alerts.Classify | script.js:56-60 | TARGET HIT iff the symbol has an entry and the price reaches its target; Soft Sell Zone iff it has an entry and the price lies in [soft, target); no alert iff there is no entry or the price is below both thresholds |
| Alerts.ClassifyMonotone | script.js:56-60 | a higher price never gives a lower alert, for any threshold table |
| Alerts.ThresholdsOrdered | script.js:4-11 | the table configures exactly XRP, DOGE, PEPE, BONK, SHIB and WIF, each with 0 < soft < target |
| Alerts.XrpScenarios | script.js:4-11 | XRP at 3.50 is in the soft zone, at 4.50 hits the target, at 2.00 is quiet; an unconfigured symbol never alerts |
| Aggregation.AddToBucket | script.js:104-105 | resetting a falsy entry to 0 and then adding `value` gives the old entry (absent counting as 0) plus `value` at that key, with every other key unchanged |
| Aggregation.ProcessTrade | script.js:99-112 | one iteration adds the trade's value to `totalValue`, to its date's bucket and to its symbol's bucket for that date, and appends its lot to the group of its literal spelling |
| Aggregation.CalculateHoldingsAndChartData | script.js:92-113 | after the loop, `totalValue` is the sum of the trades' current values; `dailyTotals` maps exactly the traded dates to their value; `coinDaily` maps exactly the traded symbols to their per-date values; `holdingsMap` maps exactly the traded spellings to their lots in ledger order |
| Aggregation.AccumulateMeaning | script.js:98-113 | folding the loop body over the ledger gives the declaratively specified dictionaries and total |
| Aggregation.EmptyLedger | script.js:93-96 | an empty ledger yields three empty dictionaries and a total of 0 |
| Aggregation.DailyTotalsGet | script.js:104-105 | reading `dailyTotals` at any date, present or not, gives the value of the trades made that day |
| Aggregation.CoinDailyGet | script.js:107-109 | reading `coinDaily` at any symbol and date, present or not, gives the value of that symbol's trades made that day |
| Aggregation.HoldingsMapGet | script.js:111-112 | reading `holdingsMap` at any spelling, present or not, gives the lots of the trades with exactly that spelling, in ledger order |
| Aggregation.DateSumsAddUp | script.js:102-105 | summed over any duplicate-free listing covering the trade dates, the per-date values give the total value |
| Aggregation.DailyTotalsAddUp | script.js:102-105 | the sum of `dailyTotals` over all its dates equals `totalValue` |
| Aggregation.DateSumSplitsBySymbol | script.js:104-109 | the value traded on a date is the sum over all canonical symbols of that symbol's value on that date |
| Aggregation.DailyTotalsMatchCoinDaily | script.js:104-109 | for every date, `dailyTotals[date]` equals the sum over all symbols of `coinDaily[symbol][date]`, a missing entry counting as 0 |
| Aggregation.GroupSizesAddUp | script.js:111-112 | summed over any duplicate-free listing covering the spellings, the group sizes add up to the number of trades |
| Aggregation.HoldingsPartitionLedger | script.js:111-112 | the sizes of the `holdingsMap` groups add up to the number of trades, so every trade lands in exactly one group |
| Aggregation.LotsInLedgerOrder | script.js:111-112 | the trade at position i is stored in its spelling's group right after the lots of the same spelling that precede it in the ledger |
| Aggregation.CaseVariantsGrouping | script.js:99-112 | two spellings that differ only in case get two `holdingsMap` groups, each holding its own trades' lots, but one shared `coinDaily` entry holding the dates of both |
| Holdings.GroupAmountIsTradeAmounts | script.js:52 | a group's total amount is the number of units bought in the trades with that spelling |
| Holdings.CoinValueIsAmountAtPrice | script.js:54 | the current value of a spelling's trades is their total amount at the one price of their symbol |
| Holdings.GroupValueIsTradeValues | script.js:54 | a group's total amount at the current price equals the sum of the current values of its trades |
| Holdings.GroupInvestedIsTradeCosts | script.js:53 | a group's investment is the sum of amount times purchase price over its trades |
| Holdings.CoinValueUnpriced | script.js:51 | the trades of a symbol missing from the snapshot are worth 0 |
| Holdings.GroupRow | script.js:52-55 | the row derived from a spelling's lots has as value the current value of its trades, as investment their cost, and as profit the difference |
| Holdings.UnpricedRow | script.js:50-60 | a row whose symbol is missing from the price snapshot shows price 0, value 0, its whole investment as a loss, and no alert |
| Holdings.HoldingRow | script.js:49-60 | the holdings-table row of every spelling in `holdingsMap` shows the price of its canonical symbol and that price's alert, and has the value, investment and profit of that spelling's trades |
| Holdings.CoinValuesAddUp | script.js:54 | summed over any duplicate-free listing covering the spellings, the spellings' current values give the total value |
| Holdings.HoldingsAddUpToTotal | script.js:49-54 | the values of the holdings-table rows add up to `totalValue` |
| Holdings.CaseVariantsPricedAlike | script.js:50-51 | two spellings of one symbol get the same current price and the same alert |
| Holdings.XrpHoldingScenario | script.js:50-60 | 100 XRP bought at 2.00 show, at 3.50, value 350, profit 150 and the soft zone; at 4.50 the target; unpriced, value 0 and profit −200 |
| Holdings.TwoLotsScenario | script.js:52-55 | lots of 10 at 1 and 20 at 2 of DOGE at 5 give amount 30, invested 50, value 150, profit 100 and the target |
| StringOrder.LexLessIrreflexive | script.js:127 | no string sorts before itself |
| StringOrder.LexLessAsymmetric | script.js:127 | no two strings sort before each other |
| StringOrder.LexLessTransitive | script.js:127 | the sort order is transitive |
| StringOrder.LexLessTotal | script.js:127 | of two different strings, one sorts before the other |
| StringOrder.InsertPermutes | script.js:127 | inserting adds exactly one copy of the inserted string |
| StringOrder.InsertSorted | script.js:127 | inserting into a sorted sequence keeps it sorted |
| StringOrder.SortSorted | script.js:127 | sorting yields a non-descending permutation of its input |
| StringOrder.SortKeys | script.js:127 | sorting keys listed once each gives a strictly ascending listing of the same keys, each once |
| StringOrder.AscendingUnique | script.js:127 | two strictly ascending sequences holding the same strings are equal |
| Chart.ChartSeries | script.js:126-133 | the labels are the chosen bucket's keys, strictly ascending and each once; the data has one value per label, the bucket's value for that label |
| Chart.UnknownKindIsEmpty | script.js:130-132 | a kind other than "ALL" without a `perCoin` entry gives empty labels and empty data |
| Chart.SeriesIgnoresKeyOrder | script.js:127-132 | the series is the same whatever order the bucket's keys were listed in |
| Chart.AllSeriesMatchesLedger | script.js:117-128 | the chart drawn after a recomputation has the ledger's dates as labels and each date's current value as data, and its data adds up to `totalValue` |
| Chart.CoinSeriesMatchesLedger | script.js:130-132 | a symbol's chart has the dates that symbol was traded on as labels and its value on each date as data |

## Left out

- `fetchLivePrices` (HTTP request and JSON decoding): the price snapshot is an input map.
- `loadTrades` (static file fetch): the ledger is an input sequence.
- DOM and text formatting in `drawHoldingsTable`, `drawTransactionsTable` and `updateProgressBar` (`innerHTML`, `toLocaleString`, `toFixed`, CSS widths, the profit colour): presentation only; the model keeps the numbers and the alert of each row.
- The construction and destruction of the Chart.js chart: a foreign library call; the model stops at the labels and data handed to it.
- `init`, `setInterval` and the `async`/`await` sequencing: scheduling glue with no state of its own.
- IEEE-754 rounding, `NaN` and `Infinity`: numbers are exact reals, so, for example, the reconciliation sums hold exactly here, while in the program they hold up to rounding.
- Ledger.Upper: upper-cases ASCII letters only, whereas `toUpperCase` also maps other Unicode letters (and can change a string's length); symbols are assumed ASCII.
- StringOrder.LexLess: compares Dafny characters (Unicode scalar values), whereas `Array.prototype.sort` compares UTF-16 code units; the two orders differ only for strings with characters outside the Basic Multilingual Plane.
- Prototype keys of plain JavaScript objects (a coin or date spelled `"constructor"` or `"__proto__"`, which would read inherited properties on the first visit): dictionaries are modelled as maps with no inherited entries.
- The order in which `for...in` visits the rows of `holdingsMap`: rows are modelled as a map from spelling to row.
- The order in which `Object.keys` lists a dictionary is a parameter of `Chart.ChartSeries`; `Chart.SeriesIgnoresKeyOrder` shows it does not matter.
- The `totalValue` argument of `drawHoldingsTable` is never read by that function, so the model does not take it.
- `drawChart` is called only with `"ALL"` in this file; other kinds are modelled because the function accepts them.
