/**
 The accumulation loop of `calculateHoldingsAndChartData` (script.js): one
 pass over the trade list that fills `dailyTotals`, `coinDaily` and
 `holdingsMap` and sums `totalValue`. Each dictionary is first specified
 declaratively, by the trades it collects; the loop is then proved to build
 exactly those dictionaries, and the reconciliation lemmas relate them.
 */
module Aggregation {
  import opened Ledger
  import opened Sums

  /** What `holdingsMap[coin].push({ amount, price, date })` stores for one trade. */
  datatype Lot = Lot(amount: real, price: real, date: string)

  function LotOf(t: Trade): Lot
  {
    Lot(t.amount, t.price, t.date)
  }

  /** A dictionary entry, an absent one counting as 0. */
  function Get(m: map<string, real>, k: string): real
  {
    if k in m then m[k] else 0.0
  }

  /** `m` with `v` added to the entry at `k`, an absent entry counting as 0. */
  function Credit(m: map<string, real>, k: string, v: real): map<string, real>
  {
    m[k := Get(m, k) + v]
  }

  /** The per-date dictionary of a symbol, an absent symbol having none. */
  function Inner(m: map<string, map<string, real>>, sym: string): map<string, real>
  {
    if sym in m then m[sym] else map[]
  }

  /** The group of lots of a literal coin spelling, an absent spelling having none. */
  function Group(m: map<string, seq<Lot>>, coin: string): seq<Lot>
  {
    if coin in m then m[coin] else []
  }

  // The specification: what each output holds, in terms of the trades.

  /** The current value of the whole ledger. */
  function TotalValue(ts: seq<Trade>, prices: Prices): real
    decreases |ts|
  {
    if ts == [] then 0.0
    else TotalValue(ts[..|ts| - 1], prices) + TradeValue(ts[|ts| - 1], prices)
  }

  /** The dates on which some trade was made. */
  function Dates(ts: seq<Trade>): set<string>
  {
    set t | t in ts :: t.date
  }

  /** The current value of the trades made on date `d`. */
  function DateSum(ts: seq<Trade>, prices: Prices, d: string): real
    decreases |ts|
  {
    if ts == [] then 0.0
    else
      var t := ts[|ts| - 1];
      DateSum(ts[..|ts| - 1], prices, d) + (if t.date == d then TradeValue(t, prices) else 0.0)
  }

  /** `dailyTotals`: every trade date, mapped to the value traded that day. */
  function DailyTotals(ts: seq<Trade>, prices: Prices): map<string, real>
  {
    map d | d in Dates(ts) :: DateSum(ts, prices, d)
  }

  /** The canonical symbols of the ledger. */
  function Symbols(ts: seq<Trade>): set<string>
  {
    set t | t in ts :: Upper(t.coin)
  }

  /** The dates on which a coin with canonical symbol `sym` was traded. */
  function SymbolDates(ts: seq<Trade>, sym: string): set<string>
  {
    set t | t in ts && Upper(t.coin) == sym :: t.date
  }

  /** The current value of the trades of symbol `sym` made on date `d`. */
  function SymbolDateSum(ts: seq<Trade>, prices: Prices, sym: string, d: string): real
    decreases |ts|
  {
    if ts == [] then 0.0
    else
      var t := ts[|ts| - 1];
      SymbolDateSum(ts[..|ts| - 1], prices, sym, d)
        + (if Upper(t.coin) == sym && t.date == d then TradeValue(t, prices) else 0.0)
  }

  /** The per-date values of one canonical symbol. */
  function SymbolDaily(ts: seq<Trade>, prices: Prices, sym: string): map<string, real>
  {
    map d | d in SymbolDates(ts, sym) :: SymbolDateSum(ts, prices, sym, d)
  }

  /** `coinDaily`: every canonical symbol, mapped to its own per-date values. */
  function CoinDaily(ts: seq<Trade>, prices: Prices): map<string, map<string, real>>
  {
    map sym | sym in Symbols(ts) :: SymbolDaily(ts, prices, sym)
  }

  /** The literal coin spellings of the ledger. */
  function Coins(ts: seq<Trade>): set<string>
  {
    set t | t in ts :: t.coin
  }

  /** The lots of the trades spelled exactly `coin`, in ledger order. */
  function LotsOf(ts: seq<Trade>, coin: string): seq<Lot>
    decreases |ts|
  {
    if ts == [] then []
    else
      var t := ts[|ts| - 1];
      LotsOf(ts[..|ts| - 1], coin) + (if t.coin == coin then [LotOf(t)] else [])
  }

  /** `holdingsMap`: every literal coin spelling, mapped to its lots. */
  function HoldingsMap(ts: seq<Trade>): map<string, seq<Lot>>
  {
    map c | c in Coins(ts) :: LotsOf(ts, c)
  }

  // The accumulation loop.

  /**
   `if (!m[k]) m[k] = 0; m[k] += v;`: the entry is reset to 0 when it is
   absent or 0 (both are falsy), and then increased by `v`.
   */
  method AddToBucket(m: map<string, real>, k: string, v: real) returns (m': map<string, real>)
    ensures m' == Credit(m, k, v)
  {
    m' := m;
    if k !in m' || m'[k] == 0.0 {
      m' := m'[k := 0.0];
    }
    m' := m'[k := m'[k] + v];
  }

  /** The four results of the loop. */
  datatype Aggregates = Aggregates(
    dailyTotals: map<string, real>,
    coinDaily: map<string, map<string, real>>,
    holdingsMap: map<string, seq<Lot>>,
    totalValue: real)

  /** The effect of one iteration of the loop on its four results. */
  function AddTrade(a: Aggregates, t: Trade, prices: Prices): Aggregates
  {
    var upper, value := Upper(t.coin), TradeValue(t, prices);
    Aggregates(
      Credit(a.dailyTotals, t.date, value),
      a.coinDaily[upper := Credit(Inner(a.coinDaily, upper), t.date, value)],
      a.holdingsMap[t.coin := Group(a.holdingsMap, t.coin) + [LotOf(t)]],
      a.totalValue + value)
  }

  /** The results of the loop after the trades `ts`, one iteration per trade. */
  function Accumulate(ts: seq<Trade>, prices: Prices): Aggregates
    decreases |ts|
  {
    if ts == [] then Aggregates(map[], map[], map[], 0.0)
    else AddTrade(Accumulate(ts[..|ts| - 1], prices), ts[|ts| - 1], prices)
  }

  /**
   One iteration of the loop of `calculateHoldingsAndChartData`: the trade's
   value is added to the running total, to its date's bucket and to its
   symbol's bucket for that date, and its lot is pushed onto the group of its
   literal spelling.
   */
  method ProcessTrade(dailyTotals: map<string, real>, coinDaily: map<string, map<string, real>>,
                         holdingsMap: map<string, seq<Lot>>, totalValue: real, t: Trade, prices: Prices)
    returns (dailyTotals': map<string, real>, coinDaily': map<string, map<string, real>>,
             holdingsMap': map<string, seq<Lot>>, totalValue': real)
    ensures Aggregates(dailyTotals', coinDaily', holdingsMap', totalValue')
         == AddTrade(Aggregates(dailyTotals, coinDaily, holdingsMap, totalValue), t, prices)
  {
    var upper := Upper(t.coin);
    var currentPrice := if upper in prices then prices[upper] else 0.0;
    var value := t.amount * currentPrice;
    assert value == TradeValue(t, prices);
    totalValue' := totalValue + value;

    dailyTotals' := AddToBucket(dailyTotals, t.date, value);

    coinDaily' := coinDaily;
    if upper !in coinDaily' {
      coinDaily' := coinDaily'[upper := map[]];
    }
    assert coinDaily'[upper] == Inner(coinDaily, upper);
    var perDate := AddToBucket(coinDaily'[upper], t.date, value);
    coinDaily' := coinDaily'[upper := perDate];

    holdingsMap' := holdingsMap;
    if t.coin !in holdingsMap' {
      holdingsMap' := holdingsMap'[t.coin := []];
    }
    assert holdingsMap'[t.coin] == Group(holdingsMap, t.coin);
    holdingsMap' := holdingsMap'[t.coin := holdingsMap'[t.coin] + [LotOf(t)]];
  }

  /**
   The loop of `calculateHoldingsAndChartData`, updating the three
   dictionaries in place one trade at a time; it builds exactly the
   dictionaries and the total that the trades specify.
   */
  method CalculateHoldingsAndChartData(trades: seq<Trade>, prices: Prices)
    returns (dailyTotals: map<string, real>, coinDaily: map<string, map<string, real>>,
             holdingsMap: map<string, seq<Lot>>, totalValue: real)
    ensures totalValue == TotalValue(trades, prices)
    ensures dailyTotals == DailyTotals(trades, prices)
    ensures coinDaily == CoinDaily(trades, prices)
    ensures holdingsMap == HoldingsMap(trades)
  {
    dailyTotals, coinDaily, holdingsMap, totalValue := map[], map[], map[], 0.0;
    var i := 0;
    while i < |trades|
      invariant 0 <= i <= |trades|
      invariant Aggregates(dailyTotals, coinDaily, holdingsMap, totalValue) == Accumulate(trades[..i], prices)
    {
      assert trades[..i + 1][..i] == trades[..i];
      dailyTotals, coinDaily, holdingsMap, totalValue :=
        ProcessTrade(dailyTotals, coinDaily, holdingsMap, totalValue, trades[i], prices);
      i := i + 1;
    }
    assert trades[..i] == trades;
    AccumulateMeaning(trades, prices);
  }

  /** The loop's results are the specified dictionaries and total. */
  lemma {:induction false} AccumulateMeaning(ts: seq<Trade>, prices: Prices)
    ensures Accumulate(ts, prices)
         == Aggregates(DailyTotals(ts, prices), CoinDaily(ts, prices), HoldingsMap(ts), TotalValue(ts, prices))
    decreases |ts|
  {
    if ts == [] {
      assert Dates(ts) == {} && Symbols(ts) == {} && Coins(ts) == {};
    } else {
      var init, t := ts[..|ts| - 1], ts[|ts| - 1];
      assert ts == init + [t];
      AccumulateMeaning(init, prices);
      DailyTotalsStep(init, t, prices);
      CoinDailyStep(init, t, prices);
      HoldingsMapStep(init, t);
    }
  }

  // One more trade: how each output changes.

  lemma SplitLast(ts: seq<Trade>, t: Trade)
    ensures (ts + [t])[..|ts|] == ts && (ts + [t])[|ts|] == t
    ensures forall x :: x in ts + [t] <==> x in ts || x == t
  {
  }

  lemma {:induction false} DateSumOutside(ts: seq<Trade>, prices: Prices, d: string)
    requires d !in Dates(ts)
    ensures DateSum(ts, prices, d) == 0.0
    decreases |ts|
  {
    if ts != [] {
      var init := ts[..|ts| - 1];
      assert ts == init + [ts[|ts| - 1]];
      assert forall x :: x in init ==> x in ts;
      DateSumOutside(init, prices, d);
    }
  }

  /** Reading `dailyTotals` at any date, absent or not, gives the value traded that day. */
  lemma DailyTotalsGet(ts: seq<Trade>, prices: Prices, d: string)
    ensures Get(DailyTotals(ts, prices), d) == DateSum(ts, prices, d)
  {
    if d !in Dates(ts) {
      DateSumOutside(ts, prices, d);
    }
  }

  lemma DailyTotalsStep(ts: seq<Trade>, t: Trade, prices: Prices)
    ensures DailyTotals(ts + [t], prices)
         == Credit(DailyTotals(ts, prices), t.date, TradeValue(t, prices))
  {
    SplitLast(ts, t);
    var before, after := DailyTotals(ts, prices), DailyTotals(ts + [t], prices);
    var expected := Credit(before, t.date, TradeValue(t, prices));
    assert Dates(ts + [t]) == Dates(ts) + {t.date};
    forall d | d in after
      ensures after[d] == expected[d]
    {
      DailyTotalsGet(ts, prices, d);
    }
  }

  lemma {:induction false} SymbolDateSumOutside(ts: seq<Trade>, prices: Prices, sym: string, d: string)
    requires d !in SymbolDates(ts, sym)
    ensures SymbolDateSum(ts, prices, sym, d) == 0.0
    decreases |ts|
  {
    if ts != [] {
      var init := ts[..|ts| - 1];
      assert ts == init + [ts[|ts| - 1]];
      assert forall x :: x in init ==> x in ts;
      SymbolDateSumOutside(init, prices, sym, d);
    }
  }

  /** Reading `coinDaily` at any symbol, absent or not, gives that symbol's per-date values. */
  lemma CoinDailyInner(ts: seq<Trade>, prices: Prices, sym: string)
    ensures Inner(CoinDaily(ts, prices), sym) == SymbolDaily(ts, prices, sym)
  {
    if sym !in Symbols(ts) {
      assert SymbolDates(ts, sym) == {};
    }
  }

  /** Reading `coinDaily` at any symbol and date, absent or not, gives the value of that symbol traded that day. */
  lemma CoinDailyGet(ts: seq<Trade>, prices: Prices, sym: string, d: string)
    ensures Get(Inner(CoinDaily(ts, prices), sym), d) == SymbolDateSum(ts, prices, sym, d)
  {
    CoinDailyInner(ts, prices, sym);
    if d !in SymbolDates(ts, sym) {
      SymbolDateSumOutside(ts, prices, sym, d);
    }
  }

  lemma SymbolDatesStep(ts: seq<Trade>, t: Trade, sym: string)
    ensures SymbolDates(ts + [t], sym) == SymbolDates(ts, sym) + (if Upper(t.coin) == sym then {t.date} else {})
  {
    var extra: set<string> := if Upper(t.coin) == sym then {t.date} else {};
    forall d | d in SymbolDates(ts + [t], sym)
      ensures d in SymbolDates(ts, sym) + extra
    {
      var x :| x in ts + [t] && Upper(x.coin) == sym && x.date == d;
      if x != t {
        assert x in ts;
      }
    }
    forall d | d in SymbolDates(ts, sym) + extra
      ensures d in SymbolDates(ts + [t], sym)
    {
      if d in SymbolDates(ts, sym) {
        var x :| x in ts && Upper(x.coin) == sym && x.date == d;
        assert x in ts + [t];
      } else {
        assert t in ts + [t];
      }
    }
  }

  lemma SymbolDateSumStep(ts: seq<Trade>, t: Trade, prices: Prices, sym: string, d: string)
    ensures SymbolDateSum(ts + [t], prices, sym, d)
         == SymbolDateSum(ts, prices, sym, d) + (if Upper(t.coin) == sym && t.date == d then TradeValue(t, prices) else 0.0)
  {
    SplitLast(ts, t);
  }

  lemma SymbolDailyGet(ts: seq<Trade>, prices: Prices, sym: string, d: string)
    ensures Get(SymbolDaily(ts, prices, sym), d) == SymbolDateSum(ts, prices, sym, d)
  {
    if d !in SymbolDates(ts, sym) {
      SymbolDateSumOutside(ts, prices, sym, d);
    }
  }

  lemma SymbolDailyStepTraded(ts: seq<Trade>, t: Trade, prices: Prices)
    ensures SymbolDaily(ts + [t], prices, Upper(t.coin))
         == Credit(SymbolDaily(ts, prices, Upper(t.coin)), t.date, TradeValue(t, prices))
  {
    var sym := Upper(t.coin);
    var before, after := SymbolDaily(ts, prices, sym), SymbolDaily(ts + [t], prices, sym);
    var expected := Credit(before, t.date, TradeValue(t, prices));
    SymbolDatesStep(ts, t, sym);
    assert after.Keys == expected.Keys;
    forall d | d in after
      ensures after[d] == expected[d]
    {
      SymbolDateSumStep(ts, t, prices, sym, d);
      SymbolDailyGet(ts, prices, sym, d);
    }
  }

  lemma SymbolDailyStepOther(ts: seq<Trade>, t: Trade, prices: Prices, sym: string)
    requires sym != Upper(t.coin)
    ensures SymbolDaily(ts + [t], prices, sym) == SymbolDaily(ts, prices, sym)
  {
    var before, after := SymbolDaily(ts, prices, sym), SymbolDaily(ts + [t], prices, sym);
    SymbolDatesStep(ts, t, sym);
    forall d | d in after
      ensures after[d] == before[d]
    {
      SymbolDateSumStep(ts, t, prices, sym, d);
    }
  }

  lemma SymbolsStep(ts: seq<Trade>, t: Trade)
    ensures Symbols(ts + [t]) == Symbols(ts) + {Upper(t.coin)}
  {
    forall sym | sym in Symbols(ts + [t])
      ensures sym in Symbols(ts) + {Upper(t.coin)}
    {
      var x :| x in ts + [t] && Upper(x.coin) == sym;
      if x != t {
        assert x in ts;
      }
    }
    forall sym | sym in Symbols(ts)
      ensures sym in Symbols(ts + [t])
    {
      var x :| x in ts && Upper(x.coin) == sym;
      assert x in ts + [t];
    }
    assert t in ts + [t];
  }

  lemma CoinDailyStep(ts: seq<Trade>, t: Trade, prices: Prices)
    ensures CoinDaily(ts + [t], prices)
         == CoinDaily(ts, prices)[Upper(t.coin) := Credit(Inner(CoinDaily(ts, prices), Upper(t.coin)), t.date, TradeValue(t, prices))]
  {
    var before, upper := CoinDaily(ts, prices), Upper(t.coin);
    var inner := Inner(before, upper);
    var after := CoinDaily(ts + [t], prices);
    var expected := before[upper := Credit(inner, t.date, TradeValue(t, prices))];
    SymbolsStep(ts, t);
    assert after.Keys == expected.Keys;
    CoinDailyInner(ts, prices, upper);
    SymbolDailyStepTraded(ts, t, prices);
    assert upper in Symbols(ts + [t]);
    assert after[upper] == SymbolDaily(ts + [t], prices, upper);
    assert inner == SymbolDaily(ts, prices, upper);
    forall sym | sym in after && sym != upper
      ensures after[sym] == expected[sym]
    {
      SymbolDailyStepOther(ts, t, prices, sym);
    }
    assert after == expected;
  }

  lemma {:induction false} LotsOfOutside(ts: seq<Trade>, coin: string)
    requires coin !in Coins(ts)
    ensures LotsOf(ts, coin) == []
    decreases |ts|
  {
    if ts != [] {
      var init := ts[..|ts| - 1];
      assert ts == init + [ts[|ts| - 1]];
      assert forall x :: x in init ==> x in ts;
      LotsOfOutside(init, coin);
    }
  }

  /** Reading `holdingsMap` at any spelling, absent or not, gives the lots of that spelling. */
  lemma HoldingsMapGet(ts: seq<Trade>, coin: string)
    ensures Group(HoldingsMap(ts), coin) == LotsOf(ts, coin)
  {
    if coin !in Coins(ts) {
      LotsOfOutside(ts, coin);
    }
  }

  lemma HoldingsMapStep(ts: seq<Trade>, t: Trade)
    ensures HoldingsMap(ts + [t]) == HoldingsMap(ts)[t.coin := Group(HoldingsMap(ts), t.coin) + [LotOf(t)]]
  {
    SplitLast(ts, t);
    var after := HoldingsMap(ts + [t]);
    var expected := HoldingsMap(ts)[t.coin := Group(HoldingsMap(ts), t.coin) + [LotOf(t)]];
    assert Coins(ts + [t]) == Coins(ts) + {t.coin};
    forall c | c in after
      ensures after[c] == expected[c]
    {
      HoldingsMapGet(ts, c);
    }
  }

  // What the outputs promise.

  /** An empty ledger yields empty dictionaries and a zero total. */
  lemma EmptyLedger(prices: Prices)
    ensures TotalValue([], prices) == 0.0
    ensures DailyTotals([], prices) == map[] && CoinDaily([], prices) == map[] && HoldingsMap([]) == map[]
  {
    var none: seq<Trade> := [];
    assert Dates(none) == {} && Symbols(none) == {} && Coins(none) == {};
  }

  lemma DatesStep(ts: seq<Trade>, t: Trade)
    ensures Dates(ts + [t]) == Dates(ts) + {t.date}
  {
    SplitLast(ts, t);
    forall d | d in Dates(ts + [t])
      ensures d in Dates(ts) + {t.date}
    {
      var x :| x in ts + [t] && x.date == d;
      if x != t {
        assert x in ts;
      }
    }
  }

  /**
   Every trade's value lands in exactly one date bucket: summed over any
   duplicate-free listing of dates that covers the trade dates, the per-date
   values give the ledger's total value.
   */
  lemma {:induction false} DateSumsAddUp(ts: seq<Trade>, prices: Prices, dates: seq<string>)
    requires Distinct(dates)
    requires forall d :: d in Dates(ts) ==> d in dates
    ensures SumOf(dates, d => DateSum(ts, prices, d)) == TotalValue(ts, prices)
    decreases |ts|
  {
    if ts == [] {
      SumOfZero(dates, d => DateSum(ts, prices, d));
    } else {
      var init, t := ts[..|ts| - 1], ts[|ts| - 1];
      assert ts == init + [t];
      DatesStep(init, t);
      DateSumsAddUp(init, prices, dates);
      SumOfShift(dates, d => DateSum(ts, prices, d), d => DateSum(init, prices, d), t.date, TradeValue(t, prices));
    }
  }

  /** The sum of `dailyTotals` over all its dates is `totalValue`. */
  lemma DailyTotalsAddUp(ts: seq<Trade>, prices: Prices, dates: seq<string>)
    requires Enumerates(dates, DailyTotals(ts, prices).Keys)
    ensures SumOf(dates, d => Get(DailyTotals(ts, prices), d)) == TotalValue(ts, prices)
  {
    forall d | d in dates
      ensures Get(DailyTotals(ts, prices), d) == DateSum(ts, prices, d)
    {
      DailyTotalsGet(ts, prices, d);
    }
    SumOfCongruent(dates, d => Get(DailyTotals(ts, prices), d), d => DateSum(ts, prices, d));
    DateSumsAddUp(ts, prices, dates);
  }

  /**
   The value traded on date `d` is split among the canonical symbols: summed
   over any duplicate-free listing of symbols covering the ledger's symbols.
   */
  lemma {:induction false} DateSumSplitsBySymbol(ts: seq<Trade>, prices: Prices, syms: seq<string>, d: string)
    requires Distinct(syms)
    requires forall sym :: sym in Symbols(ts) ==> sym in syms
    ensures DateSum(ts, prices, d) == SumOf(syms, sym => SymbolDateSum(ts, prices, sym, d))
    decreases |ts|
  {
    if ts == [] {
      SumOfZero(syms, sym => SymbolDateSum(ts, prices, sym, d));
    } else {
      var init, t := ts[..|ts| - 1], ts[|ts| - 1];
      assert ts == init + [t];
      SymbolsStep(init, t);
      DateSumSplitsBySymbol(init, prices, syms, d);
      var v := if t.date == d then TradeValue(t, prices) else 0.0;
      SumOfShift(syms, sym => SymbolDateSum(ts, prices, sym, d), sym => SymbolDateSum(init, prices, sym, d), Upper(t.coin), v);
    }
  }

  /**
   For every date, `dailyTotals[date]` is the sum over all canonical symbols
   of `coinDaily[symbol][date]`, a missing entry counting as 0.
   */
  lemma DailyTotalsMatchCoinDaily(ts: seq<Trade>, prices: Prices, syms: seq<string>, d: string)
    requires Enumerates(syms, CoinDaily(ts, prices).Keys)
    ensures Get(DailyTotals(ts, prices), d) == SumOf(syms, sym => Get(Inner(CoinDaily(ts, prices), sym), d))
  {
    DailyTotalsGet(ts, prices, d);
    forall sym | sym in syms
      ensures Get(Inner(CoinDaily(ts, prices), sym), d) == SymbolDateSum(ts, prices, sym, d)
    {
      CoinDailyGet(ts, prices, sym, d);
    }
    SumOfCongruent(syms, sym => Get(Inner(CoinDaily(ts, prices), sym), d), sym => SymbolDateSum(ts, prices, sym, d));
    DateSumSplitsBySymbol(ts, prices, syms, d);
  }

  lemma CoinsStep(ts: seq<Trade>, t: Trade)
    ensures Coins(ts + [t]) == Coins(ts) + {t.coin}
  {
    SplitLast(ts, t);
    forall c | c in Coins(ts + [t])
      ensures c in Coins(ts) + {t.coin}
    {
      var x :| x in ts + [t] && x.coin == c;
      if x != t {
        assert x in ts;
      }
    }
  }

  /** Every trade joins exactly one group: the group sizes add up to the number of trades. */
  lemma {:induction false} GroupSizesAddUp(ts: seq<Trade>, coins: seq<string>)
    requires Distinct(coins)
    requires forall c :: c in Coins(ts) ==> c in coins
    ensures SumOf(coins, c => |LotsOf(ts, c)| as real) == |ts| as real
    decreases |ts|
  {
    if ts == [] {
      SumOfZero(coins, c => |LotsOf(ts, c)| as real);
    } else {
      var init, t := ts[..|ts| - 1], ts[|ts| - 1];
      assert ts == init + [t];
      CoinsStep(init, t);
      GroupSizesAddUp(init, coins);
      SumOfShift(coins, c => |LotsOf(ts, c)| as real, c => |LotsOf(init, c)| as real, t.coin, 1.0);
    }
  }

  /** The groups of `holdingsMap` partition the ledger: their sizes sum to the number of trades. */
  lemma HoldingsPartitionLedger(ts: seq<Trade>, coins: seq<string>)
    requires Enumerates(coins, HoldingsMap(ts).Keys)
    ensures SumOf(coins, c => |Group(HoldingsMap(ts), c)| as real) == |ts| as real
  {
    forall c | c in coins
      ensures |Group(HoldingsMap(ts), c)| as real == |LotsOf(ts, c)| as real
    {
      HoldingsMapGet(ts, c);
    }
    SumOfCongruent(coins, c => |Group(HoldingsMap(ts), c)| as real, c => |LotsOf(ts, c)| as real);
    GroupSizesAddUp(ts, coins);
  }

  /** The `k`-th trade spelled `coin` is the `k`-th lot of that spelling's group: ledger order is kept. */
  lemma {:induction false} LotsInLedgerOrder(ts: seq<Trade>, coin: string, i: nat)
    requires i < |ts| && ts[i].coin == coin
    ensures |LotsOf(ts[..i], coin)| < |LotsOf(ts, coin)|
    ensures LotsOf(ts, coin)[|LotsOf(ts[..i], coin)|] == LotOf(ts[i])
    decreases |ts|
  {
    var init, t := ts[..|ts| - 1], ts[|ts| - 1];
    assert ts == init + [t];
    if i < |ts| - 1 {
      assert init[..i] == ts[..i];
      LotsInLedgerOrder(init, coin, i);
      var k := |LotsOf(ts[..i], coin)|;
      assert LotsOf(ts, coin) == LotsOf(init, coin) + (if t.coin == coin then [LotOf(t)] else []);
      assert LotsOf(ts, coin)[k] == LotsOf(init, coin)[k];
    } else {
      assert ts[..i] == init;
    }
  }

  /**
   Spellings that differ only in case form two `holdingsMap` groups but share
   one `coinDaily` entry, which holds the dates of both.
   */
  lemma CaseVariantsGrouping(ts: seq<Trade>, prices: Prices, i: nat, j: nat)
    requires i < |ts| && j < |ts|
    requires ts[i].coin != ts[j].coin && Upper(ts[i].coin) == Upper(ts[j].coin)
    ensures ts[i].coin in HoldingsMap(ts) && ts[j].coin in HoldingsMap(ts)
    ensures LotOf(ts[i]) in HoldingsMap(ts)[ts[i].coin] && LotOf(ts[j]) in HoldingsMap(ts)[ts[j].coin]
    ensures Upper(ts[i].coin) in CoinDaily(ts, prices)
    ensures ts[i].date in CoinDaily(ts, prices)[Upper(ts[i].coin)] && ts[j].date in CoinDaily(ts, prices)[Upper(ts[i].coin)]
  {
    assert ts[i] in ts && ts[j] in ts;
    LotsInLedgerOrder(ts, ts[i].coin, i);
    LotsInLedgerOrder(ts, ts[j].coin, j);
    assert HoldingsMap(ts)[ts[i].coin] == LotsOf(ts, ts[i].coin);
    assert HoldingsMap(ts)[ts[j].coin] == LotsOf(ts, ts[j].coin);
  }
}
