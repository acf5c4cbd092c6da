/**
 The per-holding quantities of `drawHoldingsTable` (script.js): for each group
 of `holdingsMap`, its total amount, amount invested, current value, profit
 and alert. The table's HTML is not modelled; its rows are.
 */
module Holdings {
  import opened Ledger
  import opened Sums
  import opened Alerts
  import opened Aggregation

  /** The numbers and the alert shown on one row of the holdings table. */
  datatype Holding = Holding(
    totalAmount: real,
    totalInvested: real,
    currentPrice: real,
    value: real,
    profit: real,
    alert: Alert)

  /** `lots.reduce((sum, t) => sum + t.amount, 0)` */
  function TotalAmount(lots: seq<Lot>): real
    decreases |lots|
  {
    if lots == [] then 0.0 else TotalAmount(lots[..|lots| - 1]) + lots[|lots| - 1].amount
  }

  /** `lots.reduce((sum, t) => sum + t.amount * t.price, 0)` */
  function TotalInvested(lots: seq<Lot>): real
    decreases |lots|
  {
    if lots == [] then 0.0
    else
      var lot := lots[|lots| - 1];
      TotalInvested(lots[..|lots| - 1]) + lot.amount * lot.price
  }

  /**
   One row: the group's current price is looked up by its canonical symbol
   (0 when unknown), its value is its total amount at that price, its profit
   is that value less what was invested, and its alert compares the price
   with the threshold table.
   */
  function DeriveHolding(coin: string, lots: seq<Lot>, prices: Prices): Holding
  {
    var cp := PriceOf(prices, coin);
    var totalAmount := TotalAmount(lots);
    var totalInvested := TotalInvested(lots);
    var value := totalAmount * cp;
    Holding(totalAmount, totalInvested, cp, value, value - totalInvested, Classify(ALERT_THRESHOLDS, Upper(coin), cp))
  }

  /** The rows of the table, one per literal coin spelling of `holdingsMap`. */
  function HoldingsTable(holdingsMap: map<string, seq<Lot>>, prices: Prices): map<string, Holding>
  {
    map c | c in holdingsMap :: DeriveHolding(c, holdingsMap[c], prices)
  }

  /** The value of a row, an absent row counting as 0. */
  function ValueOf(table: map<string, Holding>, coin: string): real
  {
    if coin in table then table[coin].value else 0.0
  }

  /** The current value of the trades spelled exactly `coin`. */
  function CoinValue(ts: seq<Trade>, prices: Prices, coin: string): real
    decreases |ts|
  {
    if ts == [] then 0.0
    else
      var t := ts[|ts| - 1];
      CoinValue(ts[..|ts| - 1], prices, coin) + (if t.coin == coin then TradeValue(t, prices) else 0.0)
  }

  /** The amount invested in the trades spelled exactly `coin`. */
  function CoinInvested(ts: seq<Trade>, coin: string): real
    decreases |ts|
  {
    if ts == [] then 0.0
    else
      var t := ts[|ts| - 1];
      CoinInvested(ts[..|ts| - 1], coin) + (if t.coin == coin then t.amount * t.price else 0.0)
  }

  /** The number of units bought in the trades spelled exactly `coin`. */
  function CoinAmount(ts: seq<Trade>, coin: string): real
    decreases |ts|
  {
    if ts == [] then 0.0
    else
      var t := ts[|ts| - 1];
      CoinAmount(ts[..|ts| - 1], coin) + (if t.coin == coin then t.amount else 0.0)
  }

  /** A group's total amount is the number of units bought in the trades spelled `coin`. */
  lemma {:induction false} GroupAmountIsTradeAmounts(ts: seq<Trade>, coin: string)
    ensures TotalAmount(LotsOf(ts, coin)) == CoinAmount(ts, coin)
    decreases |ts|
  {
    if ts != [] {
      var init, t := ts[..|ts| - 1], ts[|ts| - 1];
      GroupAmountIsTradeAmounts(init, coin);
      var lots := LotsOf(init, coin);
      if t.coin == coin {
        var grown := lots + [LotOf(t)];
        assert LotsOf(ts, coin) == grown;
        assert grown[..|grown| - 1] == lots;
      } else {
        assert LotsOf(ts, coin) == lots;
      }
    }
  }

  /** Every trade of a spelling is valued at the one price of its symbol, so their value is their amount at that price. */
  lemma {:induction false} CoinValueIsAmountAtPrice(ts: seq<Trade>, prices: Prices, coin: string)
    ensures CoinValue(ts, prices, coin) == CoinAmount(ts, coin) * PriceOf(prices, coin)
    decreases |ts|
  {
    if ts != [] {
      var init, t := ts[..|ts| - 1], ts[|ts| - 1];
      CoinValueIsAmountAtPrice(init, prices, coin);
      if t.coin == coin {
        Distribute(CoinAmount(init, coin), t.amount, PriceOf(prices, coin));
      }
    }
  }

  lemma Distribute(a: real, b: real, p: real)
    ensures (a + b) * p == a * p + b * p
  {
  }

  /**
   Valuing a group's total amount at the current price gives the same as
   valuing each of its trades separately and adding up.
   */
  lemma GroupValueIsTradeValues(ts: seq<Trade>, prices: Prices, coin: string)
    ensures TotalAmount(LotsOf(ts, coin)) * PriceOf(prices, coin) == CoinValue(ts, prices, coin)
  {
    GroupAmountIsTradeAmounts(ts, coin);
    CoinValueIsAmountAtPrice(ts, prices, coin);
  }

  /** A group's investment is the cost of the trades spelled `coin`. */
  lemma {:induction false} GroupInvestedIsTradeCosts(ts: seq<Trade>, coin: string)
    ensures TotalInvested(LotsOf(ts, coin)) == CoinInvested(ts, coin)
    decreases |ts|
  {
    if ts != [] {
      var init, t := ts[..|ts| - 1], ts[|ts| - 1];
      GroupInvestedIsTradeCosts(init, coin);
      var lots := LotsOf(init, coin);
      if t.coin == coin {
        var grown := lots + [LotOf(t)];
        assert LotsOf(ts, coin) == grown;
        assert grown[..|grown| - 1] == lots;
      } else {
        assert LotsOf(ts, coin) == lots;
      }
    }
  }

  /**
   The row of a spelling of the ledger: it shows the current price of the
   spelling's canonical symbol and the alert for that price; its value is the
   current value of the spelling's trades, its investment their cost and its
   profit the difference.
   */
  lemma HoldingRow(ts: seq<Trade>, prices: Prices, coin: string)
    requires coin in HoldingsMap(ts)
    ensures coin in HoldingsTable(HoldingsMap(ts), prices)
    ensures
      var h := HoldingsTable(HoldingsMap(ts), prices)[coin];
      && h.currentPrice == PriceOf(prices, coin)
      && h.alert == Classify(ALERT_THRESHOLDS, Upper(coin), h.currentPrice)
      && h.value == CoinValue(ts, prices, coin)
      && h.totalInvested == CoinInvested(ts, coin)
      && h.profit == CoinValue(ts, prices, coin) - CoinInvested(ts, coin)
  {
    assert HoldingsMap(ts)[coin] == LotsOf(ts, coin);
    assert HoldingsTable(HoldingsMap(ts), prices)[coin] == DeriveHolding(coin, LotsOf(ts, coin), prices);
    GroupRow(ts, prices, coin);
  }

  /** The row derived from the lots of one spelling: value, investment and profit are those of the spelling's trades. */
  lemma GroupRow(ts: seq<Trade>, prices: Prices, coin: string)
    ensures
      var h := DeriveHolding(coin, LotsOf(ts, coin), prices);
      && h.value == CoinValue(ts, prices, coin)
      && h.totalInvested == CoinInvested(ts, coin)
      && h.profit == CoinValue(ts, prices, coin) - CoinInvested(ts, coin)
  {
    var lots := LotsOf(ts, coin);
    var h := DeriveHolding(coin, lots, prices);
    assert h.value == CoinValue(ts, prices, coin) by {
      assert h.value == TotalAmount(lots) * PriceOf(prices, coin);
      GroupValueIsTradeValues(ts, prices, coin);
    }
    assert h.totalInvested == CoinInvested(ts, coin) by {
      GroupInvestedIsTradeCosts(ts, coin);
    }
    assert h.profit == h.value - h.totalInvested;
  }

  /**
   A row whose symbol is missing from the price snapshot is priced at 0, is
   worth 0, shows its whole investment as a loss and never alerts, since every
   configured threshold is positive.
   */
  lemma UnpricedRow(ts: seq<Trade>, prices: Prices, coin: string)
    requires Upper(coin) !in prices
    ensures
      var h := DeriveHolding(coin, LotsOf(ts, coin), prices);
      && h.currentPrice == 0.0
      && h.value == 0.0
      && h.profit == -CoinInvested(ts, coin)
      && h.alert == NoAlert
  {
    GroupRow(ts, prices, coin);
    CoinValueUnpriced(ts, prices, coin);
    ThresholdsOrdered();
  }

  /** The trades of an unpriced symbol are worth nothing. */
  lemma {:induction false} CoinValueUnpriced(ts: seq<Trade>, prices: Prices, coin: string)
    requires Upper(coin) !in prices
    ensures CoinValue(ts, prices, coin) == 0.0
    decreases |ts|
  {
    if ts != [] {
      CoinValueUnpriced(ts[..|ts| - 1], prices, coin);
    }
  }

  /** Summed over any duplicate-free listing covering the ledger's spellings, the spellings' values give the total value. */
  lemma {:induction false} CoinValuesAddUp(ts: seq<Trade>, prices: Prices, coins: seq<string>)
    requires Distinct(coins)
    requires forall c :: c in Coins(ts) ==> c in coins
    ensures SumOf(coins, c => CoinValue(ts, prices, c)) == TotalValue(ts, prices)
    decreases |ts|
  {
    if ts == [] {
      SumOfZero(coins, c => CoinValue(ts, prices, c));
    } else {
      var init, t := ts[..|ts| - 1], ts[|ts| - 1];
      assert ts == init + [t];
      CoinsStep(init, t);
      CoinValuesAddUp(init, prices, coins);
      SumOfShift(coins, c => CoinValue(ts, prices, c), c => CoinValue(init, prices, c), t.coin, TradeValue(t, prices));
    }
  }

  /** The values of the holdings rows add up to `totalValue`. */
  lemma HoldingsAddUpToTotal(ts: seq<Trade>, prices: Prices, coins: seq<string>)
    requires Enumerates(coins, HoldingsMap(ts).Keys)
    ensures SumOf(coins, c => ValueOf(HoldingsTable(HoldingsMap(ts), prices), c)) == TotalValue(ts, prices)
  {
    forall c | c in coins
      ensures ValueOf(HoldingsTable(HoldingsMap(ts), prices), c) == CoinValue(ts, prices, c)
    {
      HoldingRow(ts, prices, c);
    }
    SumOfCongruent(coins, c => ValueOf(HoldingsTable(HoldingsMap(ts), prices), c), c => CoinValue(ts, prices, c));
    CoinValuesAddUp(ts, prices, coins);
  }

  /** Two spellings of one symbol are priced and thresholded alike, whatever their lots. */
  lemma CaseVariantsPricedAlike(c1: string, c2: string, lots1: seq<Lot>, lots2: seq<Lot>, prices: Prices)
    requires Upper(c1) == Upper(c2)
    ensures DeriveHolding(c1, lots1, prices).currentPrice == DeriveHolding(c2, lots2, prices).currentPrice
    ensures DeriveHolding(c1, lots1, prices).alert == DeriveHolding(c2, lots2, prices).alert
  {
  }

  /** One XRP trade of 100 units at 2.00, valued at 3.50, and again at 4.50. */
  lemma XrpHoldingScenario()
    ensures DeriveHolding("XRP", [Lot(100.0, 2.00, "2024-01-01")], map["XRP" := 3.50])
         == Holding(100.0, 200.0, 3.50, 350.0, 150.0, SoftSellZone)
    ensures DeriveHolding("XRP", [Lot(100.0, 2.00, "2024-01-01")], map["XRP" := 4.50]).alert == TargetHit
    ensures DeriveHolding("XRP", [Lot(100.0, 2.00, "2024-01-01")], map[]) == Holding(100.0, 200.0, 0.0, 0.0, -200.0, NoAlert)
  {
    var lots := [Lot(100.0, 2.00, "2024-01-01")];
    assert lots[..0] == [];
    assert Upper("XRP") == "XRP";
  }

  /** Two lots of one coin on one date, 10 at 1 and 20 at 2, valued at 5. */
  lemma TwoLotsScenario()
    ensures
      var h := DeriveHolding("DOGE", [Lot(10.0, 1.0, "2024-02-02"), Lot(20.0, 2.0, "2024-02-02")], map["DOGE" := 5.0]);
      h.totalAmount == 30.0 && h.totalInvested == 50.0 && h.value == 150.0 && h.profit == 100.0 && h.alert == TargetHit
  {
    var lots := [Lot(10.0, 1.0, "2024-02-02"), Lot(20.0, 2.0, "2024-02-02")];
    assert lots[..1][..0] == [] && lots[..1] == [lots[0]];
    assert TotalAmount(lots[..1]) == 10.0 && TotalInvested(lots[..1]) == 10.0;
    assert TotalAmount(lots) == 30.0 && TotalInvested(lots) == 50.0;
    assert Upper("DOGE") == "DOGE";
  }
}
