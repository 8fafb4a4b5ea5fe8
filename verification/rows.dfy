/**
 The holdings table: one row of metrics per holding whose symbol has an entry in the
 price table. Holdings with an unknown symbol get no row at all, although they still
 count in the invested total of the summary cards.
 */
module Rows {
  import opened Wrappers
  import opened Holdings
  import opened Valuation

  /** The figures one table row shows. */
  datatype Row = Row(holding: Holding, entry: PriceEntry, currentValue: real, investedValue: real,
                     pnl: real, pnlPercentage: Option<real>)

  /**
   The metrics of one row, or `None` when the holding's symbol has no price entry.
   The row's P&L percentage divides by the invested value without a guard; it is absent
   here exactly when that divisor is 0.
   */
  function RowMetrics(h: Holding, prices: Prices): (r: Option<Row>)
    ensures r.None? <==> h.symbol !in prices
    ensures r.Some? ==>
              && r.value.holding == h
              && r.value.entry == prices[h.symbol]
              && r.value.currentValue == h.amount * prices[h.symbol].price
              && r.value.investedValue == h.amount * h.purchasePrice
              && r.value.pnl + r.value.investedValue == r.value.currentValue
              && (r.value.pnlPercentage.Some? <==> r.value.investedValue != 0.0)
              && (r.value.pnlPercentage.Some? ==>
                    r.value.pnlPercentage.value * r.value.investedValue == r.value.pnl * 100.0)
  {
    if h.symbol !in prices then None
    else
      var entry := prices[h.symbol];
      var currentValue := h.amount * entry.price;
      var investedValue := h.amount * h.purchasePrice;
      var pnl := currentValue - investedValue;
      var pnlPercentage := if investedValue != 0.0 then Some(pnl / investedValue * 100.0) else None;
      Some(Row(h, entry, currentValue, investedValue, pnl, pnlPercentage))
  }

  /** A row shows the same current value and invested value the summary counts for its holding. */
  lemma RowAgreesWithSummary(h: Holding, prices: Prices)
    requires h.symbol in prices
    ensures RowMetrics(h, prices).value.currentValue == CurrentValue(h, prices)
    ensures RowMetrics(h, prices).value.investedValue == Invested(h)
  {
    assert CurrentPrice(prices, h.symbol) == prices[h.symbol].price;
  }

  /** The number of holdings in `p` whose symbol has a price entry. */
  function PricedCount(p: seq<Holding>, prices: Prices): nat
  {
    if |p| == 0 then 0 else (if p[0].symbol in prices then 1 else 0) + PricedCount(p[1..], prices)
  }

  /** The rows of the table, in holding order, with unpriced holdings skipped. */
  function TableRows(p: seq<Holding>, prices: Prices): (rows: seq<Row>)
    ensures |rows| == PricedCount(p, prices)
    ensures forall r :: r in rows ==> r.holding in p && RowMetrics(r.holding, prices) == Some(r)
    ensures forall h :: h in p && h.symbol in prices ==> RowMetrics(h, prices).value in rows
  {
    if |p| == 0 then []
    else
      match RowMetrics(p[0], prices)
      case None => TableRows(p[1..], prices)
      case Some(row) => [row] + TableRows(p[1..], prices)
  }

  /** Row building works on each part of a list separately, so rows keep the holdings' order. */
  lemma {:induction false} TableRowsDistribute(a: seq<Holding>, b: seq<Holding>, prices: Prices)
    ensures TableRows(a + b, prices) == TableRows(a, prices) + TableRows(b, prices)
  {
    if |a| == 0 {
      assert a + b == b;
    } else {
      assert (a + b)[0] == a[0];
      assert (a + b)[1..] == a[1..] + b;
      TableRowsDistribute(a[1..], b, prices);
    }
  }

  function SumRowValues(rows: seq<Row>): real
  {
    if |rows| == 0 then 0.0 else rows[0].currentValue + SumRowValues(rows[1..])
  }

  function SumRowInvested(rows: seq<Row>): real
  {
    if |rows| == 0 then 0.0 else rows[0].investedValue + SumRowInvested(rows[1..])
  }

  /** What was paid for the holdings that get no row. */
  function UnpricedInvested(p: seq<Holding>, prices: Prices): real
  {
    if |p| == 0 then 0.0
    else (if p[0].symbol in prices then 0.0 else Invested(p[0])) + UnpricedInvested(p[1..], prices)
  }

  /**
   The table's current values add up to the summary's total value: an unpriced holding
   is missing from the table and is also valued at 0 in the total.
   */
  lemma {:induction false} RowValuesMatchTotal(p: seq<Holding>, prices: Prices)
    ensures SumRowValues(TableRows(p, prices)) == TotalValue(p, prices)
  {
    if |p| > 0 {
      RowValuesMatchTotal(p[1..], prices);
      var rest := TableRows(p[1..], prices);
      match RowMetrics(p[0], prices)
      case None =>
        assert TableRows(p, prices) == rest;
        assert CurrentPrice(prices, p[0].symbol) == 0.0;
      case Some(row) =>
        var rows := [row] + rest;
        assert TableRows(p, prices) == rows;
        assert rows[1..] == rest;
        RowAgreesWithSummary(p[0], prices);
    }
  }

  /**
   The table's invested values fall short of the summary's invested total by exactly
   what was paid for the unpriced holdings.
   */
  lemma {:induction false} RowInvestedGap(p: seq<Holding>, prices: Prices)
    ensures SumRowInvested(TableRows(p, prices)) + UnpricedInvested(p, prices) == TotalInvested(p)
  {
    if |p| > 0 {
      RowInvestedGap(p[1..], prices);
      var rest := TableRows(p[1..], prices);
      match RowMetrics(p[0], prices)
      case None =>
        assert TableRows(p, prices) == rest;
      case Some(row) =>
        var rows := [row] + rest;
        assert TableRows(p, prices) == rows;
        assert rows[1..] == rest;
        RowAgreesWithSummary(p[0], prices);
    }
  }

  /** Two units of an unknown symbol bought at 10: worth 0, invested 20, and no table row. */
  lemma UnknownSymbolScenario(prices: Prices)
    requires "XYZ" !in prices
    ensures PortfolioStats([Holding(1, "XYZ", 2.0, 10.0, "")], prices).totalValue == 0.0
    ensures PortfolioStats([Holding(1, "XYZ", 2.0, 10.0, "")], prices).totalInvested == 20.0
    ensures TableRows([Holding(1, "XYZ", 2.0, 10.0, "")], prices) == []
  {
    var p := [Holding(1, "XYZ", 2.0, 10.0, "")];
    assert TotalValue(p, prices) == 0.0;
    assert TotalInvested(p) == 20.0;
  }

  /**
   When the draft symbol was picked from the price table's upper-case symbols, the new
   holding gets a table row.
   */
  lemma AddedSelectionHasRow(s: Session, id: int, dateAdded: string, parse: string -> real, prices: Prices)
    requires !Incomplete(s.draft)
    requires s.draft.symbol in prices && IsUpper(s.draft.symbol)
    ensures |TableRows(AddHolding(s, id, dateAdded, parse).portfolio, prices)| == |TableRows(s.portfolio, prices)| + 1
  {
    var h := NewHolding(s.draft, id, dateAdded, parse);
    ToUpperFixesUpper(s.draft.symbol);
    TableRowsDistribute(s.portfolio, [h], prices);
  }
}
