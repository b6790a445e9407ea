/**
 Trade arithmetic: costs, tax, profit, break-even price and history averages.
 Silver amounts are int64; where the program computes in floating point, the model has exact reals.
 */
module Trade {
  import opened Wrappers
  import opened Arithmetic
  import opened Int64

  // ---------- Arithmetic ----------

  /** The product of two non-negative int64 values, if it is one. */
  function Multiply(left: int, right: int): Option<int> {
    if left < 0 || right < 0 || (left > 0 && right > MAX_INT64 / left) then None else Some(Wrap(left * right))
  }

  /** Half away from zero. */
  function Round(x: real): int {
    if x >= 0.0 then (x + 0.5).Floor else -((-x + 0.5).Floor)
  }

  function Ceil(x: real): int {
    -((-x).Floor)
  }

  lemma MultiplySucceedsIffItFits(left: int, right: int)
    requires Fits(left) && Fits(right)
    ensures Multiply(left, right).Some? <==> left >= 0 && right >= 0 && Fits(left * right)
    ensures Multiply(left, right).Some? ==> Multiply(left, right).value == left * right
  {
    if left > 0 && right >= 0 {
      var q := MAX_INT64 / left;
      if right <= q {
        assert left * right <= left * q <= MAX_INT64 by { ScalesUp(left, right, q); }
      } else {
        assert left * right >= left * (q + 1) > MAX_INT64 by { ScalesUp(left, q + 1, right); }
      }
      ScalesUp(left, 0, right);
    }
  }

  // ---------- One trade ----------

  datatype Economics =
    | NotReady
    | Ready(purchaseCost: int, grossRevenue: int, salesTax: int, netRevenue: int, profit: int,
            profitPerUnit: int, breakEven: int)

  /** What request validation guarantees. */
  predicate Validated(quantity: int, purchase: Option<int>, sale: Option<int>, taxRate: real, transport: int) {
    && 1 <= quantity <= 1_000_000
    && (purchase.Some? ==> 0 < purchase.value <= MAX_INT64)
    && (sale.Some? ==> 0 < sale.value <= MAX_INT64)
    && 0.0 <= taxRate < 1.0
    && 0 <= transport <= MAX_INT64
  }

  function TaxOn(gross: int, taxRate: real): int {
    Round(gross as real * taxRate)
  }

  function BreakEven(cost: int, quantity: int, taxRate: real): int
    requires quantity != 0 && taxRate < 1.0
  {
    Ceil(cost as real / quantity as real / (1.0 - taxRate))
  }

  function CalculateEconomics(quantity: int, purchase: Option<int>, sale: Option<int>, taxRate: real, transport: int): Economics
    requires Validated(quantity, purchase, sale, taxRate, transport)
  {
    if purchase.None? || sale.None? then NotReady
    else
      var (cost, gross) := (Multiply(purchase.value, quantity), Multiply(sale.value, quantity));
      if cost.None? || gross.None? then NotReady
      else
        var tax := TaxOn(gross.value, taxRate);
        var net := Wrap(Wrap(gross.value - tax) - transport);
        var profit := Wrap(net - cost.value);
        Ready(cost.value, gross.value, tax, net, profit, Quot(profit, quantity),
              BreakEven(Wrap(cost.value + transport), quantity, taxRate))
  }

  // ---------- Exact profit ----------

  /** The profit at a sale price, without any width. */
  function ExactProfit(price: int, quantity: int, cost: int, taxRate: real): int {
    price * quantity - TaxOn(price * quantity, taxRate) - cost
  }

  /** Revenue after the rounded tax is within half a coin of revenue after the exact tax. */
  lemma TaxIsWithinHalf(gross: int, taxRate: real)
    requires gross >= 0 && 0.0 <= taxRate < 1.0
    ensures 0 <= TaxOn(gross, taxRate) <= gross
    ensures gross as real * (1.0 - taxRate) - 0.5 <= (gross - TaxOn(gross, taxRate)) as real
          < gross as real * (1.0 - taxRate) + 0.5
  {
    ProductIsMonotone(0.0, gross as real, taxRate);
    assert gross as real * (1.0 - taxRate) == gross as real - gross as real * taxRate;
    ProductIsMonotone(0.0, gross as real, 1.0 - taxRate);
  }

  /** A price reaches the break-even price iff its revenue after the exact tax covers the cost. */
  lemma ReachesBreakEvenIff(price: int, quantity: int, cost: int, taxRate: real)
    requires quantity >= 1 && 0.0 <= taxRate < 1.0
    ensures price >= BreakEven(cost, quantity, taxRate) <==>
              (price * quantity) as real * (1.0 - taxRate) >= cost as real
  {
    var (p, q, c, keep) := (price as real, quantity as real, cost as real, 1.0 - taxRate);
    var exact := c / q / keep;
    assert price >= Ceil(exact) <==> p >= exact;
    assert (price * quantity) as real == p * q;
    assert exact * keep == c / q && c / q * q == c;
    assert exact * (q * keep) == c by { assert exact * keep * q == exact * (q * keep); }
    assert p * q * keep == p * (q * keep);
    assert q * keep > 0.0;
    if p >= exact {
      ProductIsMonotone(exact, p, q * keep);
    } else {
      StrictlyMonotone(p, exact, q * keep);
    }
  }

  lemma StrictlyMonotone(a: real, b: real, x: real)
    requires a < b && x > 0.0
    ensures a * x < b * x
  {}

  /** The price is a threshold for the exact profit: no loss from it on, no gain below it. */
  ghost predicate IsThreshold(breakEven: int, quantity: int, cost: int, taxRate: real) {
    forall price: nat ::
      && (price >= breakEven ==> ExactProfit(price, quantity, cost, taxRate) >= 0)
      && (price < breakEven ==> ExactProfit(price, quantity, cost, taxRate) <= 0)
  }

  lemma BreakEvenIsThreshold(quantity: int, cost: int, taxRate: real)
    requires quantity >= 1 && 0.0 <= taxRate < 1.0
    ensures IsThreshold(BreakEven(cost, quantity, taxRate), quantity, cost, taxRate)
  {
    forall price: nat
      ensures price >= BreakEven(cost, quantity, taxRate) ==> ExactProfit(price, quantity, cost, taxRate) >= 0
      ensures price < BreakEven(cost, quantity, taxRate) ==> ExactProfit(price, quantity, cost, taxRate) <= 0
    {
      ScalesUp(quantity, 0, price);
      ReachesBreakEvenIff(price, quantity, cost, taxRate);
      TaxIsWithinHalf(price * quantity, taxRate);
    }
  }

  // ---------- What the int64 computation reports ----------

  /** When the figures are ready, costs, revenues and tax are exact; profit and break-even are computed
      with wrap-around. */
  lemma ReadyFigures(quantity: int, purchase: Option<int>, sale: Option<int>, taxRate: real, transport: int)
    requires Validated(quantity, purchase, sale, taxRate, transport)
    ensures var e := CalculateEconomics(quantity, purchase, sale, taxRate, transport);
            && (e.Ready? <==> purchase.Some? && sale.Some? &&
                              Fits(purchase.value * quantity) && Fits(sale.value * quantity))
            && (e.Ready? ==>
                  && 0 < e.purchaseCost == purchase.value * quantity
                  && 0 < e.grossRevenue == sale.value * quantity
                  && 0 <= e.salesTax == TaxOn(e.grossRevenue, taxRate) <= e.grossRevenue
                  && e.netRevenue == e.grossRevenue - e.salesTax - transport
                  && e.profit == Wrap(ExactProfit(sale.value, quantity, e.purchaseCost + transport, taxRate))
                  && e.breakEven == BreakEven(Wrap(e.purchaseCost + transport), quantity, taxRate))
  {
    if purchase.Some? && sale.Some? {
      MultiplySucceedsIffItFits(purchase.value, quantity);
      MultiplySucceedsIffItFits(sale.value, quantity);
      ScalesUp(quantity, 1, purchase.value);
      ScalesUp(quantity, 1, sale.value);
      TaxIsWithinHalf(sale.value * quantity, taxRate);
    }
  }

  /** The reported profit is the exact one iff what the trade costs, tax included, exceeds its
      revenue by no more than an int64 can hold. */
  lemma ProfitIsExactIff(quantity: int, purchase: Option<int>, sale: Option<int>, taxRate: real, transport: int)
    requires Validated(quantity, purchase, sale, taxRate, transport)
    requires purchase.Some? && sale.Some?
    ensures var e := CalculateEconomics(quantity, purchase, sale, taxRate, transport);
            var (cost, gross) := (purchase.value * quantity + transport, sale.value * quantity);
            e.Ready? ==> (e.profit == ExactProfit(sale.value, quantity, cost, taxRate)
                          <==> cost + TaxOn(gross, taxRate) - gross <= -MIN_INT64)
  {
    ReadyFigures(quantity, purchase, sale, taxRate, transport);
  }

  /** The profit per unit is the reported profit shared out, cut toward zero. */
  lemma ProfitPerUnitIsCut(quantity: int, purchase: Option<int>, sale: Option<int>, taxRate: real, transport: int)
    requires Validated(quantity, purchase, sale, taxRate, transport)
    ensures var e := CalculateEconomics(quantity, purchase, sale, taxRate, transport);
            e.Ready? ==>
              && (e.profit >= 0 ==> 0 <= e.profitPerUnit * quantity <= e.profit < (e.profitPerUnit + 1) * quantity)
              && (e.profit <= 0 ==> (e.profitPerUnit - 1) * quantity < e.profit <= e.profitPerUnit * quantity <= 0)
  {
    var e := CalculateEconomics(quantity, purchase, sale, taxRate, transport);
    if e.Ready? {
      SharedOut(if e.profit >= 0 then e.profit else -e.profit, quantity);
      assert (e.profitPerUnit - 1) * quantity == -((1 - e.profitPerUnit) * quantity);
      assert e.profitPerUnit * quantity == -((-e.profitPerUnit) * quantity);
    }
  }

  lemma SharedOut(x: int, quantity: int)
    requires x >= 0 && quantity >= 1
    ensures 0 <= x / quantity * quantity <= x < (x / quantity + 1) * quantity
  {
    var q := x / quantity;
    assert q * quantity <= x < q * quantity + quantity;
    if q < 0 {
      ScalesUp(quantity, q + 1, 0);
    } else {
      ScalesUp(quantity, 0, q);
    }
  }

  /** The reported break-even price is a threshold iff cost and transport together fit an int64. */
  lemma ReportedBreakEvenIsThresholdIff(quantity: int, purchase: Option<int>, sale: Option<int>, taxRate: real, transport: int)
    requires Validated(quantity, purchase, sale, taxRate, transport)
    ensures var e := CalculateEconomics(quantity, purchase, sale, taxRate, transport);
            e.Ready? ==> (IsThreshold(e.breakEven, quantity, e.purchaseCost + transport, taxRate)
                          <==> e.purchaseCost + transport <= MAX_INT64)
  {
    var e := CalculateEconomics(quantity, purchase, sale, taxRate, transport);
    ReadyFigures(quantity, purchase, sale, taxRate, transport);
    if e.Ready? {
      WrappedCostIsNoThreshold(e.purchaseCost + transport, quantity, taxRate);
    }
  }

  lemma WrappedCostIsNoThreshold(cost: int, quantity: int, taxRate: real)
    requires quantity >= 1 && 0.0 <= taxRate < 1.0 && 0 < cost <= 2 * MAX_INT64
    ensures IsThreshold(BreakEven(Wrap(cost), quantity, taxRate), quantity, cost, taxRate) <==> cost <= MAX_INT64
  {
    BreakEvenIsThreshold(quantity, cost, taxRate);
    if cost > MAX_INT64 {
      ReachesBreakEvenIff(0, quantity, Wrap(cost), taxRate);
      assert Wrap(cost) < 0;
      var price: nat := 0;
      assert price >= BreakEven(Wrap(cost), quantity, taxRate) && ExactProfit(price, quantity, cost, taxRate) < 0;
    }
  }

  /** A trade with a huge loss that is reported as a profit, with break-even below zero. */
  lemma HugeLossReportedAsProfit()
    ensures var (purchase, transport) := (9_000_000_000_000_000_000, 9_000_000_000_000_000_000);
            && Validated(1, Some(purchase), Some(1), 0.0, transport)
            && (var e := CalculateEconomics(1, Some(purchase), Some(1), 0.0, transport);
                e.Ready? && e.profit == 446_744_073_709_551_617 && e.breakEven < 0)
            && ExactProfit(1, 1, purchase + transport, 0.0) < 0
  {
    var (purchase, transport) := (9_000_000_000_000_000_000, 9_000_000_000_000_000_000);
    MultiplySucceedsIffItFits(purchase, 1);
    MultiplySucceedsIffItFits(1, 1);
    assert TaxOn(1, 0.0) == 0;
    ReadyFigures(1, Some(purchase), Some(1), 0.0, transport);
    ReachesBreakEvenIff(-1, 1, Wrap(purchase + transport), 0.0);
  }
}
