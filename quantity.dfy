/**
 * The order-quantity suggester (QuantitySuggester): the forecast demand up
 * to a target day, less the current stock, grown by a safety margin and
 * rounded; its batch form; and the variant that caps the quantity by a
 * budget.
 */
module Quantity {
  import opened Wrappers
  import opened Numeric
  import opened Forecast
  import opened Catalog

  /**
   * The target date as a number of days from today: absent (or empty), a
   * parsed date, or a string the date parser rejects.
   */
  datatype Target = NoTarget | InDays(days: int) | Unparsable

  /** The contextual recommendations; the stock-rate ones are unreachable (the rate is fixed at 50%). */
  datatype Advice = LowMargin | HighMargin | SufficientStock | StrongDemand

  datatype QuantityResult =
    | Suggested(articleId: int, name: string, quantity: int, cumulated: nat, stock: int, netNeed: nat,
                marginUnits: int, marginPercent: real, coverageDays: int, unitPrice: real,
                totalCost: real, stockAfterOrder: int, advice: seq<Advice>)
    | QuantityFailed(articleId: int)
  {
    /** `quantite_suggeree`, which the error entry reports as 0. */
    function Quantity(): int {
      if Suggested? then quantity else 0
    }
  }

  const DefaultMargin: real := 15.0
  const MaxMargin: real := 50.0
  const DefaultCoverage: int := 30
  const MaxCoverage: int := 90
  const StrongDemandThreshold: int := 500

  // ---------------------------------------------------------------------
  // Specification

  /** The margin actually applied: one outside [0, 50] is replaced by 15. */
  function EffectiveMargin(margin: real): (m: real)
    ensures 0.0 <= m <= MaxMargin
    ensures 0.0 <= margin <= MaxMargin ==> m == margin
    ensures !(0.0 <= margin <= MaxMargin) ==> m == DefaultMargin
  {
    if 0.0 <= margin <= MaxMargin then margin else DefaultMargin
  }

  /** The number of days to cover: 30 by default, at most 90, and 30 again for a target not in the future. */
  function CoverageDays(target: Target): (d: int)
    requires !target.Unparsable?
    ensures 1 <= d <= MaxCoverage
    ensures target.InDays? && 1 <= target.days <= MaxCoverage ==> d == target.days
    ensures target.InDays? && MaxCoverage < target.days ==> d == MaxCoverage
    ensures (target.NoTarget? || target.days < 1) ==> d == DefaultCoverage
  {
    match target
    case NoTarget => DefaultCoverage
    case InDays(days) => if days > MaxCoverage then MaxCoverage else if days < 1 then DefaultCoverage else days
  }

  function Recommendations(need: nat, margin: real): (r: seq<Advice>)
    ensures LowMargin in r <==> margin < 10.0
    ensures HighMargin in r <==> margin > 30.0
    ensures SufficientStock in r <==> need == 0
    ensures StrongDemand in r <==> need > StrongDemandThreshold
    ensures |r| <= 2
  {
    (if margin < 10.0 then [LowMargin] else if margin > 30.0 then [HighMargin] else [])
    + (if need == 0 then [SufficientStock] else if need > StrongDemandThreshold then [StrongDemand] else [])
  }

  /** The margin in units, need × margin%, before rounding. */
  function MarginUnits(need: nat, margin: real): real {
    Mul(need as real, margin / 100.0)
  }

  /**
   * The rounded quantity: it covers the need, and with a margin of at most
   * 50% exceeds it by at most half the need (plus the half unit rounding may add).
   */
  function RoundedQuantity(need: nat, margin: real): (q: int)
    requires 0.0 <= margin <= MaxMargin
    ensures need <= q
    ensures 2 * q <= 3 * need + 1
  {
    MarginUnitsBounds(need, margin);
    RoundAtLeast(need as real + MarginUnits(need, margin), need);
    Round(need as real + MarginUnits(need, margin))
  }

  lemma MarginUnitsBounds(need: nat, margin: real)
    requires 0.0 <= margin <= MaxMargin
    ensures 0.0 <= MarginUnits(need, margin) <= need as real / 2.0
  {
    MulNonNegative(need as real, margin / 100.0);
    MulAtMost(need as real, margin / 100.0, 0.5);
  }

  /** What the stock does not cover of the cumulated demand, never negative. */
  function NetNeed(cumulated: nat, stock: int): (n: nat)
    ensures n == 0 <==> cumulated <= stock
    ensures stock + n >= cumulated
  {
    if cumulated - stock < 0 then 0 else cumulated - stock
  }

  /** The stock used: the override unless absent or 0, else the latest recorded level (0 when none). */
  function CurrentStock(stockOverride: Option<int>, latestStock: Option<int>): int {
    OrInt(stockOverride, latestStock.GetOr(0))
  }

  /**
   * The suggestion for a known product once the window's demand is known:
   * the quantity covers the net need, and stock plus quantity covers the demand.
   */
  function Suggestion(articleId: int, name: string, cumulated: nat, stock: int, days: int,
                      m: real, price: real): (r: QuantityResult)
    requires 0.0 <= m <= MaxMargin
    ensures r.Suggested? && r.cumulated == cumulated && r.stock == stock
    ensures r.coverageDays == days && r.marginPercent == m && r.unitPrice == price
    ensures r.netNeed == NetNeed(cumulated, stock)
    ensures r.netNeed <= r.quantity && 2 * r.quantity <= 3 * r.netNeed + 1
    ensures r.stockAfterOrder == stock + r.quantity && cumulated <= r.stockAfterOrder
    ensures r.totalCost == Mul(r.quantity as real, price)
  {
    var need := NetNeed(cumulated, stock);
    var q := RoundedQuantity(need, m);
    Suggested(articleId, name, q, cumulated, stock, need, Round(MarginUnits(need, m)), m, days,
              price, Mul(q as real, price), stock + q, Recommendations(need, m))
  }

  /** `calculate_quantity`: unknown products and unparsable targets give the error entry. */
  function QuantitySpec(articleId: int, p: seq<nat>, target: Target, margin: real,
                        stockOverride: Option<int>, latestStock: Option<int>, row: Option<ProductRow>): (r: QuantityResult)
    ensures r.QuantityFailed? <==> row.None? || target.Unparsable?
    ensures r.Suggested? ==> 0.0 <= r.marginPercent <= MaxMargin && 1 <= r.coverageDays <= MaxCoverage
    ensures r.Suggested? ==> r.cumulated == Sum(p, 0, r.coverageDays)
    ensures r.Suggested? ==> r.netNeed == (if r.cumulated < r.stock then 0 else r.cumulated - r.stock)
    ensures r.Suggested? ==> r.netNeed <= r.quantity && 2 * r.quantity <= 3 * r.netNeed + 1
    ensures r.Suggested? ==> r.stockAfterOrder == r.stock + r.quantity && Sum(p, 0, r.coverageDays) <= r.stockAfterOrder
    ensures r.Suggested? ==> r.totalCost == Mul(r.quantity as real, r.unitPrice)
    ensures 0 <= r.Quantity()
  {
    if row.None? || target.Unparsable? then QuantityFailed(articleId)
    else
      var days := CoverageDays(target);
      Suggestion(articleId, row.value.name, Sum(p, 0, days), CurrentStock(stockOverride, latestStock), days,
                 EffectiveMargin(margin), UnitPrice(row.value))
  }

  // ---------------------------------------------------------------------
  // Budget

  datatype BudgetResult =
      /** The ideal quantity is affordable: the plain result, marked as within budget. */
    | WithinBudget(result: QuantityResult)
      /** The quantity capped by the budget, what it costs, how many days it covers and what is missing. */
    | Limited(articleId: int, quantity: int, ideal: int, budget: real, adjustedCost: real,
              coveredDays: int, deficit: int)
      /** The product is unknown: the error escapes to the caller. */
    | BudgetFailed(articleId: int)

  /** How many whole units the budget buys: int(budget / price). */
  function BudgetCap(budget: real, price: real): int
    requires price != 0.0
  {
    Trunc(Div(budget, price))
  }

  /** Days covered by stock + cap: the first day the running demand exceeds it, 0 when it never does. */
  function CoveredDays(stock: int, p: seq<nat>): int {
    match First(p, Stockout(stock), 0, |p|)
    case Some(i) => i
    case None => 0
  }

  function BudgetSpec(articleId: int, p: seq<nat>, budget: real, margin: real,
                      latestStock: Option<int>, row: Option<ProductRow>): (r: BudgetResult)
    ensures r.BudgetFailed? <==> row.None?
    ensures r.WithinBudget? ==> r.result.Suggested?
    ensures r.Limited? ==> r.quantity < r.ideal && r.deficit == r.ideal - r.quantity && 0 < r.deficit
  {
    if row.None? then BudgetFailed(articleId)
    else
      var price := UnitPrice(row.value);
      var cap := BudgetCap(budget, price);
      BudgetOutcome(articleId, QuantitySpec(articleId, p, NoTarget, margin, None, latestStock, row), cap, budget, price,
                    CoveredDays(latestStock.GetOr(0) + cap, p))
  }

  /** The decision once the unconstrained result and the cap are known: keep the result if it fits, else order the cap. */
  function BudgetOutcome(articleId: int, normal: QuantityResult, cap: int, budget: real, price: real, covered: int): BudgetResult {
    var ideal := normal.Quantity();
    if ideal <= cap then WithinBudget(normal)
    else Limited(articleId, cap, ideal, budget, Mul(cap as real, price), covered, ideal - cap)
  }

  // ---------------------------------------------------------------------
  // Properties of the specification

  /** Ordering the suggested quantity covers the forecast demand of the whole coverage window. */
  lemma SuggestionCoversWindow(articleId: int, p: seq<nat>, target: Target, margin: real,
                               stockOverride: Option<int>, latestStock: Option<int>, product: ProductRow)
    requires !target.Unparsable?
    ensures var r := QuantitySpec(articleId, p, target, margin, stockOverride, latestStock, Some(product));
      && r.Suggested?
      && r.coverageDays == CoverageDays(target)
      && r.marginPercent == EffectiveMargin(margin)
      && Sum(p, 0, CoverageDays(target)) <= r.stock + r.quantity
      && (r.stock >= Sum(p, 0, CoverageDays(target)) ==> r.netNeed == 0 && r.quantity == 0)
  {
  }

  /**
   * The budgeted quantity is the smaller of the ideal quantity and what the
   * budget buys; with a positive price and a non-negative budget the capped
   * order stays within the budget, and one more unit would exceed it.
   */
  lemma BudgetQuantityIsMin(articleId: int, p: seq<nat>, budget: real, margin: real,
                            latestStock: Option<int>, product: ProductRow)
    ensures var r := BudgetSpec(articleId, p, budget, margin, latestStock, Some(product));
      var cap := BudgetCap(budget, UnitPrice(product));
      var ideal := QuantitySpec(articleId, p, NoTarget, margin, None, latestStock, Some(product)).quantity;
      && (r.WithinBudget? <==> ideal <= cap)
      && (r.WithinBudget? ==> r.result.quantity == ideal)
      && (r.Limited? ==> r.quantity == cap && r.ideal == ideal)
  {
  }

  lemma BudgetCapWithinBudget(budget: real, price: real)
    requires 0.0 < price && 0.0 <= budget
    ensures 0 <= BudgetCap(budget, price)
    ensures Mul(BudgetCap(budget, price) as real, price) <= budget
    ensures budget < Mul((BudgetCap(budget, price) + 1) as real, price)
  {
    var c := BudgetCap(budget, price);
    var d := Div(budget, price);
    MulDivCancel(budget, price);
    assert 0.0 <= d by {
      if d < 0.0 {
        MulStrictMonotone(d, 0.0, price);
      }
    }
    MulMonotone(c as real, d, price);
    MulStrictMonotone(d, (c + 1) as real, price);
  }

  /** The covered days: the running demand stays within the stock through them and exceeds it on the next day. */
  lemma CoveredDaysIsFirstExcess(stock: int, p: seq<nat>)
    ensures var n := CoveredDays(stock, p);
      && 0 <= n < |p| + 1
      && (n > 0 ==> forall k :: 1 <= k <= n ==> Sum(p, 0, k) <= stock)
      && (n > 0 ==> stock < Sum(p, 0, n + 1))
      && (n == 0 ==> stock < At(p, 0) || Sum(p, 0, |p|) <= stock)
  {
    var r := First(p, Stockout(stock), 0, |p|);
    if r.None? && 0 < |p| {
      assert !Hit(p, Stockout(stock), |p| - 1);
    }
    if r.Some? {
      var n := r.value;
      forall k | 1 <= k <= n
        ensures Sum(p, 0, k) <= stock
      {
        assert !Hit(p, Stockout(stock), k - 1);
      }
    }
  }

  // ---------------------------------------------------------------------
  // The suggester

  /** `_sum_predictions_until_date`: the demand of the first `days` days. */
  method SumPredictionsUntilDate(p: seq<nat>, days: int) returns (total: nat)
    ensures total == Sum(p, 0, days)
  {
    total := 0;
    var i := 0;
    while i < |p|
      invariant 0 <= i <= |p|
      invariant i <= days || (days <= 0 && i == 0)
      invariant total == Sum(p, 0, i)
    {
      if i >= days {
        break;
      }
      total := total + p[i];
      i := i + 1;
    }
    if i == |p| && |p| < days {
      SumBeyondHorizon(p, 0, days);
    } else if days <= 0 {
      assert Sum(p, 0, days) == 0;
    }
  }

  /** `calculate_quantity`. */
  method CalculateQuantity(articleId: int, p: seq<nat>, target: Target, margin: real,
                           stockOverride: Option<int>, latestStock: Option<int>, row: Option<ProductRow>)
    returns (r: QuantityResult)
    ensures r == QuantitySpec(articleId, p, target, margin, stockOverride, latestStock, row)
  {
    var m := margin;
    if !(0.0 <= m <= MaxMargin) {
      m := DefaultMargin;
    }
    var stock := CurrentStock(stockOverride, latestStock);
    if row.None? || target.Unparsable? {
      return QuantityFailed(articleId);
    }
    var product := row.value;
    var days: int;
    if target.InDays? {
      days := target.days;
      if days > MaxCoverage {
        days := MaxCoverage;
      } else if days < 1 {
        days := DefaultCoverage;
      }
    } else {
      days := DefaultCoverage;
    }
    assert m == EffectiveMargin(margin);
    assert days == CoverageDays(target);
    var cumulated := SumPredictionsUntilDate(p, days);
    r := ApplyMargin(articleId, product.name, cumulated, stock, days, m, UnitPrice(product));
  }

  /** The second half of `calculate_quantity`: net need, margin, rounding and cost. */
  method ApplyMargin(articleId: int, name: string, cumulated: nat, stock: int, days: int, m: real, price: real)
    returns (r: QuantityResult)
    requires 0.0 <= m <= MaxMargin
    ensures r == Suggestion(articleId, name, cumulated, stock, days, m, price)
  {
    var need := cumulated - stock;
    if need < 0 {
      need := 0;
    }
    var marginUnits := Mul(need as real, m / 100.0);
    var q := Round(need as real + marginUnits);
    r := Suggested(articleId, name, q, cumulated, stock, need, Round(marginUnits), m, days,
                   price, Mul(q as real, price), stock + q, Recommendations(need, m));
  }

  // ---------------------------------------------------------------------
  // Batch

  /** One entry of the batch: its own target and margin, when given, replace the common ones. */
  datatype QuantityRequest = QuantityRequest(articleId: int, predictions: seq<nat>, target: Option<Target>,
                                             margin: Option<real>, latestStock: Option<int>, row: Option<ProductRow>)

  datatype BatchSummary = BatchSummary(articleCount: nat, totalQuantity: int, totalCost: real)

  function RequestSpec(q: QuantityRequest, target: Target, margin: real): QuantityResult {
    QuantitySpec(q.articleId, q.predictions, q.target.GetOr(target), q.margin.GetOr(margin), None, q.latestStock, q.row)
  }

  /** Sum of the quantities of the successful entries. */
  function TotalQuantity(rs: seq<QuantityResult>): int {
    if rs == [] then 0
    else TotalQuantity(rs[..|rs| - 1]) + (if rs[|rs| - 1].Suggested? then rs[|rs| - 1].quantity else 0)
  }

  /** Sum of the costs of the successful entries. */
  function TotalCost(rs: seq<QuantityResult>): real {
    if rs == [] then 0.0
    else TotalCost(rs[..|rs| - 1]) + (if rs[|rs| - 1].Suggested? then rs[|rs| - 1].totalCost else 0.0)
  }

  /** Sum of `quantite_suggeree` over every entry, error entries included. */
  function ReportedQuantity(rs: seq<QuantityResult>): int {
    if rs == [] then 0 else rs[0].Quantity() + ReportedQuantity(rs[1..])
  }

  lemma {:induction false} ReportedQuantityAppend(rs: seq<QuantityResult>, r: QuantityResult)
    ensures ReportedQuantity(rs + [r]) == ReportedQuantity(rs) + r.Quantity()
  {
    if rs != [] {
      assert (rs + [r])[1..] == rs[1..] + [r];
      ReportedQuantityAppend(rs[1..], r);
    }
  }

  /**
   * Skipping the error entries does not change the total, since they report
   * a quantity of 0: the batch total is the sum of every entry's quantity.
   */
  lemma {:induction false} TotalQuantityCountsEveryEntry(rs: seq<QuantityResult>)
    ensures TotalQuantity(rs) == ReportedQuantity(rs)
  {
    if rs != [] {
      var init := rs[..|rs| - 1];
      TotalQuantityCountsEveryEntry(init);
      ReportedQuantityAppend(init, rs[|rs| - 1]);
      assert init + [rs[|rs| - 1]] == rs;
    }
  }

  /** A batch of well-formed entries never totals a negative quantity. */
  lemma {:induction false} TotalQuantityNonNegative(rs: seq<QuantityResult>)
    requires forall k :: 0 <= k < |rs| ==> 0 <= rs[k].Quantity()
    ensures 0 <= TotalQuantity(rs)
  {
    if rs != [] {
      TotalQuantityNonNegative(rs[..|rs| - 1]);
    }
  }

  /** Appending a result adds its quantity and cost to the totals when it is a suggestion. */
  lemma TotalsSnoc(rs: seq<QuantityResult>, r: QuantityResult)
    ensures TotalQuantity(rs + [r]) == TotalQuantity(rs) + (if r.Suggested? then r.quantity else 0)
    ensures TotalCost(rs + [r]) == TotalCost(rs) + (if r.Suggested? then r.totalCost else 0.0)
  {
    assert (rs + [r])[..|rs|] == rs;
  }

  /** `calculate_batch_quantities`. */
  method CalculateBatchQuantities(items: seq<QuantityRequest>, target: Target, margin: real)
    returns (results: seq<QuantityResult>, summary: BatchSummary)
    ensures |results| == |items|
    ensures forall k :: 0 <= k < |items| ==> results[k] == RequestSpec(items[k], target, margin)
    ensures summary == BatchSummary(|results|, TotalQuantity(results), TotalCost(results))
    ensures 0 <= summary.totalQuantity
  {
    results := [];
    var totalCost := 0.0;
    var totalQuantity := 0;
    var i := 0;
    while i < |items|
      invariant 0 <= i <= |items|
      invariant |results| == i
      invariant forall k :: 0 <= k < i ==> results[k] == RequestSpec(items[k], target, margin)
      invariant totalQuantity == TotalQuantity(results)
      invariant totalCost == TotalCost(results)
    {
      var item := items[i];
      var result := CalculateQuantity(item.articleId, item.predictions, item.target.GetOr(target),
                                      item.margin.GetOr(margin), None, item.latestStock, item.row);
      assert result == RequestSpec(item, target, margin);
      TotalsSnoc(results, result);
      assert forall k :: 0 <= k < i ==> (results + [result])[k] == results[k];
      results := results + [result];
      if result.Suggested? {
        totalCost := totalCost + result.totalCost;
        totalQuantity := totalQuantity + result.quantity;
      }
      i := i + 1;
    }
    summary := BatchSummary(|results|, totalQuantity, totalCost);
    TotalQuantityNonNegative(results);
  }

  /** The coverage loop of the budget case: the running demand is compared with the stock plus the capped order. */
  method CountCoveredDays(available: int, p: seq<nat>) returns (covered: int)
    ensures covered == CoveredDays(available, p)
  {
    covered := 0;
    var cumulated := 0;
    var i := 0;
    while i < |p|
      invariant 0 <= i <= |p|
      invariant cumulated == Sum(p, 0, i)
      invariant First(p, Stockout(available), 0, |p|) == First(p, Stockout(available), i, |p|)
    {
      cumulated := cumulated + p[i];
      if cumulated > available {
        covered := i;
        assert First(p, Stockout(available), 0, |p|) == Some(i);
        return;
      }
      i := i + 1;
    }
  }

  /** `optimize_quantity_for_budget`. */
  method OptimizeQuantityForBudget(articleId: int, p: seq<nat>, budget: real, margin: real,
                                   latestStock: Option<int>, row: Option<ProductRow>) returns (r: BudgetResult)
    ensures r == BudgetSpec(articleId, p, budget, margin, latestStock, row)
  {
    if row.None? {
      return BudgetFailed(articleId);
    }
    var price := UnitPrice(row.value);
    var cap := BudgetCap(budget, price);
    var normal := CalculateQuantity(articleId, p, NoTarget, margin, None, latestStock, row);
    var ideal := normal.Quantity();
    if ideal <= cap {
      return WithinBudget(normal);
    }
    var covered := CountCoveredDays(latestStock.GetOr(0) + cap, p);
    r := Limited(articleId, cap, ideal, budget, Mul(cap as real, price), covered, ideal - cap);
  }
}
