/**
 Whole-portfolio valuation: the summary cards' total value, total invested, total P&L and
 P&L percentage, computed from the holding list and the symbol-to-price table.

 JavaScript numbers are modelled as exact `real`s.
 */
module Valuation {
  import opened Holdings

  /** What the price table holds for one symbol. */
  datatype PriceEntry = PriceEntry(name: string, price: real, change24h: real, icon: string)

  /** The price table, keyed by symbol. */
  type Prices = map<string, PriceEntry>

  /** The unit price of `symbol`, or 0 when the table has no entry for it. */
  function CurrentPrice(prices: Prices, symbol: string): real
  {
    if symbol in prices then prices[symbol].price else 0.0
  }

  /** What a holding is worth at the current price (0 for an unknown symbol). */
  function CurrentValue(h: Holding, prices: Prices): real
  {
    h.amount * CurrentPrice(prices, h.symbol)
  }

  /** What was paid for a holding. */
  function Invested(h: Holding): real
  {
    h.amount * h.purchasePrice
  }

  /** The sum of the current values of all holdings. */
  function TotalValue(p: seq<Holding>, prices: Prices): real
  {
    if |p| == 0 then 0.0 else CurrentValue(p[0], prices) + TotalValue(p[1..], prices)
  }

  /** The sum of what was paid for all holdings; the price table plays no part. */
  function TotalInvested(p: seq<Holding>): real
  {
    if |p| == 0 then 0.0 else Invested(p[0]) + TotalInvested(p[1..])
  }

  /** The four figures of the summary cards. */
  datatype Stats = Stats(totalValue: real, totalInvested: real, totalPnL: real, totalPnLPercentage: real)

  /** P&L as a percentage of what was invested, or 0 unless the investment is positive. */
  function PnLPercentage(pnl: real, invested: real): real
  {
    if invested > 0.0 then pnl / invested * 100.0 else 0.0
  }

  /** The summary figures, defined from the two sums. */
  function PortfolioStats(p: seq<Holding>, prices: Prices): Stats
  {
    var value := TotalValue(p, prices);
    var invested := TotalInvested(p);
    Stats(value, invested, value - invested, PnLPercentage(value - invested, invested))
  }

  /** Both sums split over a concatenation. */
  lemma {:induction false} TotalsAppend(a: seq<Holding>, b: seq<Holding>, prices: Prices)
    ensures TotalValue(a + b, prices) == TotalValue(a, prices) + TotalValue(b, prices)
    ensures TotalInvested(a + b) == TotalInvested(a) + TotalInvested(b)
  {
    if |a| == 0 {
      assert a + b == b;
    } else {
      assert (a + b)[0] == a[0];
      assert (a + b)[1..] == a[1..] + b;
      TotalsAppend(a[1..], b, prices);
    }
  }

  /** Extending a prefix by one holding adds that holding's share to each total. */
  lemma TotalsStep(p: seq<Holding>, i: nat, prices: Prices)
    requires i < |p|
    ensures TotalValue(p[..i + 1], prices) == TotalValue(p[..i], prices) + CurrentValue(p[i], prices)
    ensures TotalInvested(p[..i + 1]) == TotalInvested(p[..i]) + Invested(p[i])
  {
    TotalsAppend(p[..i], [p[i]], prices);
    assert p[..i + 1] == p[..i] + [p[i]];
  }

  /** The guarded percentage, multiplied back by a positive investment, gives 100 times the P&L. */
  lemma PnLPercentageScales(pnl: real, invested: real)
    requires invested > 0.0
    ensures PnLPercentage(pnl, invested) * invested == pnl * 100.0
  {
  }

  /**
   The summary computation as the dashboard performs it: one pass over the holdings,
   accumulating current value and invested amount, then the P&L and its guarded percentage.
   */
  method CalculatePortfolioStats(p: seq<Holding>, prices: Prices) returns (s: Stats)
    ensures s == PortfolioStats(p, prices)
  {
    var totalValue := 0.0;
    var totalInvested := 0.0;
    for i := 0 to |p|
      invariant totalValue == TotalValue(p[..i], prices)
      invariant totalInvested == TotalInvested(p[..i])
    {
      var currentPrice := CurrentPrice(prices, p[i].symbol);
      var currentValue := p[i].amount * currentPrice;
      var invested := p[i].amount * p[i].purchasePrice;
      TotalsStep(p, i, prices);
      totalValue := totalValue + currentValue;
      totalInvested := totalInvested + invested;
    }
    assert p[..|p|] == p;
    var totalPnL := totalValue - totalInvested;
    var totalPnLPercentage := if totalInvested > 0.0 then totalPnL / totalInvested * 100.0 else 0.0;
    s := Stats(totalValue, totalInvested, totalPnL, totalPnLPercentage);
  }

  /**
   The P&L is value minus invested; its percentage is 0 unless the investment is positive,
   and otherwise is the number that, times the investment, gives 100 times the P&L.
   */
  lemma StatsMeaning(p: seq<Holding>, prices: Prices)
    ensures var s := PortfolioStats(p, prices);
            && s.totalPnL == s.totalValue - s.totalInvested
            && (s.totalInvested <= 0.0 ==> s.totalPnLPercentage == 0.0)
            && (s.totalInvested > 0.0 ==> s.totalPnLPercentage * s.totalInvested == s.totalPnL * 100.0)
  {
    var s := PortfolioStats(p, prices);
    if s.totalInvested > 0.0 {
      PnLPercentageScales(s.totalPnL, s.totalInvested);
    }
  }

  /** An empty portfolio has all four figures zero. */
  lemma EmptyPortfolioStats(prices: Prices)
    ensures PortfolioStats([], prices) == Stats(0.0, 0.0, 0.0, 0.0)
  {
  }

  /** The invested total is the same whatever the price table holds. */
  lemma InvestedIgnoresPrices(p: seq<Holding>, prices1: Prices, prices2: Prices)
    ensures PortfolioStats(p, prices1).totalInvested == PortfolioStats(p, prices2).totalInvested
  {
  }

  /**
   A holding whose symbol has no price adds nothing to the total value but still adds
   what was paid for it to the invested total (and so lowers the P&L by that much).
   */
  lemma UnknownSymbolCounts(p: seq<Holding>, h: Holding, prices: Prices)
    requires h.symbol !in prices
    ensures PortfolioStats(p + [h], prices).totalValue == PortfolioStats(p, prices).totalValue
    ensures PortfolioStats(p + [h], prices).totalInvested == PortfolioStats(p, prices).totalInvested + h.amount * h.purchasePrice
    ensures PortfolioStats(p + [h], prices).totalPnL == PortfolioStats(p, prices).totalPnL - h.amount * h.purchasePrice
  {
    TotalsAppend(p, [h], prices);
  }

  /** A successful add raises each total by exactly the new holding's share. */
  lemma AddHoldingStats(s: Session, id: int, dateAdded: string, parse: string -> real, prices: Prices)
    requires !Incomplete(s.draft)
    ensures TotalValue(AddHolding(s, id, dateAdded, parse).portfolio, prices)
            == TotalValue(s.portfolio, prices) + parse(s.draft.amount) * CurrentPrice(prices, ToUpper(s.draft.symbol))
    ensures TotalInvested(AddHolding(s, id, dateAdded, parse).portfolio)
            == TotalInvested(s.portfolio) + parse(s.draft.amount) * parse(s.draft.purchasePrice)
  {
    var h := NewHolding(s.draft, id, dateAdded, parse);
    assert AddHolding(s, id, dateAdded, parse).portfolio == s.portfolio + [h];
    TotalsAppend(s.portfolio, [h], prices);
    assert TotalValue([h], prices) == CurrentValue(h, prices);
    assert TotalInvested([h]) == Invested(h);
  }

  /** With unique ids, removing the holding at position `k` lowers each total by exactly its share. */
  lemma RemoveHoldingStats(p: seq<Holding>, k: nat, prices: Prices)
    requires UniqueIds(p)
    requires k < |p|
    ensures TotalValue(RemoveHolding(p, p[k].id), prices) == TotalValue(p, prices) - CurrentValue(p[k], prices)
    ensures TotalInvested(RemoveHolding(p, p[k].id)) == TotalInvested(p) - Invested(p[k])
  {
    RemoveUnique(p, k);
    assert p == p[..k] + [p[k]] + p[k + 1..];
    TotalsAppend(p[..k] + [p[k]], p[k + 1..], prices);
    TotalsAppend(p[..k], [p[k]], prices);
    TotalsAppend(p[..k], p[k + 1..], prices);
  }

  /** The sign shown on the percentage card agrees with the sign of the P&L whenever money was invested. */
  lemma PercentageSign(p: seq<Holding>, prices: Prices)
    requires PortfolioStats(p, prices).totalInvested > 0.0
    ensures PortfolioStats(p, prices).totalPnLPercentage >= 0.0 <==> PortfolioStats(p, prices).totalPnL >= 0.0
  {
  }

  /** One bitcoin bought at 40000 and now priced at 43250. */
  lemma BitcoinScenario(prices: Prices)
    requires "BTC" in prices && prices["BTC"].price == 43250.0
    ensures PortfolioStats([Holding(1, "BTC", 1.0, 40000.0, "")], prices) == Stats(43250.0, 40000.0, 3250.0, 8.125)
  {
    var p := [Holding(1, "BTC", 1.0, 40000.0, "")];
    assert TotalValue(p, prices) == 43250.0;
    assert TotalInvested(p) == 40000.0;
  }
}
