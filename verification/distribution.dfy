/**
 The pie chart's data: one slice per holding, in list order, carrying the holding's
 current value and its percentage of the portfolio's total value.
 */
module Distribution {
  import opened Holdings
  import opened Valuation

  /** One pie slice. */
  datatype Slice = Slice(name: string, value: real, percentage: real)

  /** `value` as a percentage of `total`, or 0 unless the total is positive. */
  function Share(value: real, total: real): real
  {
    if total > 0.0 then value / total * 100.0 else 0.0
  }

  /** The slices of `p` measured against a given total. */
  function Slices(p: seq<Holding>, prices: Prices, total: real): (d: seq<Slice>)
    ensures |d| == |p|
    ensures forall i :: 0 <= i < |p| ==>
              && d[i].name == p[i].symbol
              && d[i].value == CurrentValue(p[i], prices)
              && d[i].percentage == Share(d[i].value, total)
  {
    if |p| == 0 then [] else [Slice(p[0].symbol, CurrentValue(p[0], prices), Share(CurrentValue(p[0], prices), total))] + Slices(p[1..], prices, total)
  }

  /**
   The chart data: every holding's slice, measured against the same total value as the
   summary card, using the same price-or-zero lookup.
   */
  function PortfolioDistribution(p: seq<Holding>, prices: Prices): (d: seq<Slice>)
    ensures |d| == |p|
    ensures forall i :: 0 <= i < |p| ==>
              && d[i].name == p[i].symbol
              && d[i].value == CurrentValue(p[i], prices)
              && d[i].percentage == Share(d[i].value, TotalValue(p, prices))
  {
    Slices(p, prices, TotalValue(p, prices))
  }

  function SumValues(d: seq<Slice>): real
  {
    if |d| == 0 then 0.0 else d[0].value + SumValues(d[1..])
  }

  function SumPercentages(d: seq<Slice>): real
  {
    if |d| == 0 then 0.0 else d[0].percentage + SumPercentages(d[1..])
  }

  lemma {:induction false} SlicesValuesSum(p: seq<Holding>, prices: Prices, total: real)
    ensures SumValues(Slices(p, prices, total)) == TotalValue(p, prices)
  {
    if |p| > 0 {
      SlicesValuesSum(p[1..], prices, total);
      assert Slices(p, prices, total)[1..] == Slices(p[1..], prices, total);
    }
  }

  /** Shares of one positive total add up like the values they measure. */
  lemma ShareAdds(v: real, rest: real, total: real)
    requires total > 0.0
    ensures Share(v, total) + rest / total * 100.0 == (v + rest) / total * 100.0
  {
    var a, b := v / total, rest / total;
    assert a * total == v && b * total == rest;
    assert (a + b) * total == v + rest;
  }

  lemma {:induction false} SlicesPercentagesSum(p: seq<Holding>, prices: Prices, total: real)
    requires total > 0.0
    ensures SumPercentages(Slices(p, prices, total)) == TotalValue(p, prices) / total * 100.0
  {
    if |p| > 0 {
      SlicesPercentagesSum(p[1..], prices, total);
      var d := Slices(p, prices, total);
      assert d[1..] == Slices(p[1..], prices, total);
      ShareAdds(CurrentValue(p[0], prices), TotalValue(p[1..], prices), total);
    }
  }

  /** The slice values add up to the total value shown on the summary card. */
  lemma DistributionValuesSum(p: seq<Holding>, prices: Prices)
    ensures SumValues(PortfolioDistribution(p, prices)) == PortfolioStats(p, prices).totalValue
  {
    SlicesValuesSum(p, prices, TotalValue(p, prices));
  }

  /**
   The slice percentages add up to 100 when the total value is positive; otherwise
   every slice's percentage is 0.
   */
  lemma DistributionPercentagesSum(p: seq<Holding>, prices: Prices)
    ensures TotalValue(p, prices) > 0.0 ==> SumPercentages(PortfolioDistribution(p, prices)) == 100.0
    ensures TotalValue(p, prices) <= 0.0 ==>
              forall i :: 0 <= i < |p| ==> PortfolioDistribution(p, prices)[i].percentage == 0.0
  {
    var t := TotalValue(p, prices);
    if t > 0.0 {
      SlicesPercentagesSum(p, prices, t);
    }
  }

  /** An empty portfolio has no slices. */
  lemma EmptyDistribution(prices: Prices)
    ensures PortfolioDistribution([], prices) == []
  {
  }
}
