/**
 The series that `drawChart` (script.js) hands to the charting library: the
 chosen bucket's dates, sorted, as labels, and each date's value as data.
 The drawing itself is not modelled.
 */
module Chart {
  import opened Ledger
  import opened Sums
  import opened StringOrder
  import opened Aggregation

  /** The x-axis labels and the y values of the chart. */
  datatype Series = Series(labels: seq<string>, data: seq<real>)

  /** `"ALL"` charts the daily totals; any other kind charts that symbol's dates, or nothing when it has none. */
  function SelectBucket(kind: string, totals: map<string, real>, perCoin: map<string, map<string, real>>): map<string, real>
  {
    if kind == "ALL" then totals else Inner(perCoin, kind)
  }

  /**
   The series of `kind`, given `keys`, the order in which `Object.keys` lists
   the chosen bucket: the labels are the bucket's keys in strictly ascending
   order, and the value at each position is the bucket's value for that label.
   */
  function ChartSeries(kind: string, totals: map<string, real>, perCoin: map<string, map<string, real>>, keys: seq<string>): (s: Series)
    requires Enumerates(keys, SelectBucket(kind, totals, perCoin).Keys)
    ensures Ascending(s.labels)
    ensures Enumerates(s.labels, SelectBucket(kind, totals, perCoin).Keys)
    ensures |s.data| == |s.labels|
    ensures forall i :: 0 <= i < |s.labels| ==> s.data[i] == SelectBucket(kind, totals, perCoin)[s.labels[i]]
  {
    var bucket := SelectBucket(kind, totals, perCoin);
    SortKeys(keys);
    var labels := Sort(keys);
    Series(labels, seq(|labels|, i requires 0 <= i < |labels| => bucket[labels[i]]))
  }

  /** A kind other than `"ALL"` that has no per-symbol bucket draws an empty chart. */
  lemma UnknownKindIsEmpty(kind: string, totals: map<string, real>, perCoin: map<string, map<string, real>>, keys: seq<string>)
    requires kind != "ALL" && kind !in perCoin
    requires Enumerates(keys, SelectBucket(kind, totals, perCoin).Keys)
    ensures ChartSeries(kind, totals, perCoin, keys) == Series([], [])
  {
    EnumeratesEmpty(keys, SelectBucket(kind, totals, perCoin).Keys);
  }

  /** The series does not depend on the order in which the bucket's keys were listed. */
  lemma SeriesIgnoresKeyOrder(kind: string, totals: map<string, real>, perCoin: map<string, map<string, real>>, keys1: seq<string>, keys2: seq<string>)
    requires Enumerates(keys1, SelectBucket(kind, totals, perCoin).Keys)
    requires Enumerates(keys2, SelectBucket(kind, totals, perCoin).Keys)
    ensures ChartSeries(kind, totals, perCoin, keys1) == ChartSeries(kind, totals, perCoin, keys2)
  {
    var s1, s2 := ChartSeries(kind, totals, perCoin, keys1), ChartSeries(kind, totals, perCoin, keys2);
    AscendingUnique(s1.labels, s2.labels);
    assert s1.data == s2.data;
  }

  /**
   The overall chart drawn after a recomputation: its labels are exactly the
   ledger's dates, each point is the current value of that date's trades, and
   the points add up to the portfolio's total value.
   */
  lemma AllSeriesMatchesLedger(ts: seq<Trade>, prices: Prices, keys: seq<string>)
    requires Enumerates(keys, DailyTotals(ts, prices).Keys)
    ensures
      var s := ChartSeries("ALL", DailyTotals(ts, prices), CoinDaily(ts, prices), keys);
      && (forall d :: d in s.labels <==> d in Dates(ts))
      && (forall i :: 0 <= i < |s.labels| ==> s.data[i] == DateSum(ts, prices, s.labels[i]))
      && Sum(s.data) == TotalValue(ts, prices)
  {
    var totals := DailyTotals(ts, prices);
    var s := ChartSeries("ALL", totals, CoinDaily(ts, prices), keys);
    forall i | 0 <= i < |s.labels| ensures s.data[i] == DateSum(ts, prices, s.labels[i]) {
      DailyTotalsGet(ts, prices, s.labels[i]);
    }
    SumOfLookups(s.labels, d => Get(totals, d), s.data);
    DailyTotalsAddUp(ts, prices, s.labels);
  }

  /** A symbol's chart: its labels are the dates it was traded on, each point the current value of its trades that day. */
  lemma CoinSeriesMatchesLedger(ts: seq<Trade>, prices: Prices, sym: string, keys: seq<string>)
    requires sym != "ALL"
    requires Enumerates(keys, SelectBucket(sym, DailyTotals(ts, prices), CoinDaily(ts, prices)).Keys)
    ensures
      var s := ChartSeries(sym, DailyTotals(ts, prices), CoinDaily(ts, prices), keys);
      && (forall d :: d in s.labels <==> d in SymbolDates(ts, sym))
      && (forall i :: 0 <= i < |s.labels| ==> s.data[i] == SymbolDateSum(ts, prices, sym, s.labels[i]))
  {
    var s := ChartSeries(sym, DailyTotals(ts, prices), CoinDaily(ts, prices), keys);
    CoinDailyInner(ts, prices, sym);
    forall i | 0 <= i < |s.labels| ensures s.data[i] == SymbolDateSum(ts, prices, sym, s.labels[i]) {
      CoinDailyGet(ts, prices, sym, s.labels[i]);
    }
  }
}
