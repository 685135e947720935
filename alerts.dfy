/**
 * The alert classifier (AlertCalculator): from the current stock, the lead
 * time, the unit price and the daily demand forecast it chooses a tier
 * (CRITIQUE, ATTENTION or OK), computes that tier's dates and financial
 * impact, and attaches a suggested order quantity. Day values are offsets
 * from today.
 */
module Alerts {
  import opened Wrappers
  import opened Numeric
  import opened Forecast
  import opened Catalog

  datatype Tier = Critique | Attention | Ok

  /** What each tier computes beyond the tier itself. */
  datatype TierDetails =
      /** The stockout day (1-based), the days out of stock before delivery, the sales lost and their value. */
    | CritiqueDetails(stockoutDay: int, stockoutDays: int, lostSales: nat, loss: int)
      /** The order deadline, the stockout day without an order, the value and the units an order saves. */
    | AttentionDetails(orderDeadline: int, stockoutIfNoOrder: int, benefit: int, savedSales: int)
      /** The order window and the days the stock lasts. */
    | OkDetails(earliestOrder: int, latestOrder: int, daysOfStockLeft: nat)
  {
    function Tier(): Tier {
      match this
      case CritiqueDetails(_, _, _, _) => Critique
      case AttentionDetails(_, _, _, _) => Attention
      case OkDetails(_, _, _) => Ok
    }

    /** The `financial_impact.amount` of the tier. */
    function Amount(): int {
      match this
      case CritiqueDetails(_, _, _, loss) => loss
      case AttentionDetails(_, _, benefit, _) => benefit
      case OkDetails(_, _, _) => 0
    }
  }

  /** The result of `calculate_alert`: an evaluated alert, or the ERROR entry. */
  datatype AlertResult =
    | Evaluated(articleId: int, name: string, stock: int, leadTime: int, unitPrice: real,
                salesDuringLead: nat, stockAfterLead: int, details: TierDetails,
                estimatedLoss: int, benefitIfOrdered: int,
                suggestedQuantity: int, cumulatedSales: nat, netNeed: nat, marginApplied: int)
    | Failed(articleId: int)

  /** The fixed number of forecast days the attached quantity covers. */
  const SuggestionHorizon: nat := 30
  /** The margin `calculate_batch_alerts` applies (the parameter's default). */
  const DefaultMargin: real := 15.0

  // ---------------------------------------------------------------------
  // Specification

  /** The tier rule: short during the lead time, short in the three days after it, or neither. */
  function Classify(stock: int, p: seq<nat>, lead: int): Tier {
    var afterLead := stock - Sum(p, 0, lead);
    if afterLead < 0 then Critique
    else if afterLead < Sum(p, lead, lead + 3) then Attention
    else Ok
  }

  function StockoutDay(stock: int, p: seq<nat>, lead: int): int {
    match First(p, Stockout(stock), 0, PrefixLength(|p|, lead))
    case Some(i) => i + 1
    case None => lead
  }

  function CritiqueSpec(stock: int, p: seq<nat>, lead: int, price: real): TierDetails {
    var day := StockoutDay(stock, p, lead);
    var lost := Sum(p, day - 1, lead);
    CritiqueDetails(day, lead - day + 1, lost, Round(Mul(lost as real, price)))
  }

  function DeadlineDay(stock: int, p: seq<nat>, lead: int): int {
    match First(p, Deadline(stock, lead), 0, |p|)
    case Some(i) => i
    case None => 3
  }

  function AttentionSpec(stock: int, p: seq<nat>, lead: int, price: real): TierDetails
    requires lead != 0
  {
    var day := DeadlineDay(stock, p, lead);
    var average := Div(Sum(p, 0, lead) as real, lead as real);
    AttentionDetails(day, day + lead, Round(Mul(Mul(lead as real, average), price)), Round(Mul(lead as real, average)))
  }

  function EarliestOrder(stock: int, p: seq<nat>, lead: int): int {
    match First(p, Covered(stock, lead + 3), 0, |p|)
    case Some(i) => if i - 1 < 0 then 0 else i - 1
    case None => 7
  }

  function LatestOrder(stock: int, p: seq<nat>, lead: int): int {
    match First(p, Covered(stock, lead + 1), 0, |p|)
    case Some(i) => i
    case None => var d1 := EarliestOrder(stock, p, lead); if 14 < d1 + 7 then 14 else d1 + 7
  }

  /** Whole days the stock lasts: days before the running stock first goes negative. */
  function DaysOfStock(stock: int, p: seq<nat>): nat {
    match First(p, Stockout(stock), 0, |p|)
    case Some(i) => i
    case None => |p|
  }

  function OkSpec(stock: int, p: seq<nat>, lead: int): TierDetails {
    OkDetails(EarliestOrder(stock, p, lead), LatestOrder(stock, p, lead), DaysOfStock(stock, p))
  }


  /** The details of the tier the stock falls in. */
  function TierSpec(stock: int, p: seq<nat>, lead: int, price: real): (d: TierDetails)
    requires lead != 0
    ensures d.Tier() == Classify(stock, p, lead)
  {
    match Classify(stock, p, lead)
    case Critique => CritiqueSpec(stock, p, lead, price)
    case Attention => AttentionSpec(stock, p, lead, price)
    case Ok => OkSpec(stock, p, lead)
  }

  /**
   * The attached order quantity: the net need grown by the margin percentage
   * and truncated. It covers the need whenever the margin is not negative,
   * and is never negative while the margin does not remove more than the need.
   */
  function SuggestedQuantity(need: nat, margin: real): (q: int)
    ensures 0.0 <= margin ==> need <= q
    ensures -100.0 <= margin ==> 0 <= q
    ensures 0.0 <= margin <= 100.0 ==> q <= 2 * need
  {
    MarginBounds(need as real, margin);
    Trunc(Mul(need as real, 1.0 + margin / 100.0))
  }

  lemma MarginBounds(need: real, margin: real)
    requires 0.0 <= need
    ensures 0.0 <= margin ==> need <= Mul(need, 1.0 + margin / 100.0)
    ensures -100.0 <= margin ==> 0.0 <= Mul(need, 1.0 + margin / 100.0)
    ensures 0.0 <= margin <= 100.0 ==> Mul(need, 1.0 + margin / 100.0) <= 2.0 * need
  {
    var f := 1.0 + margin / 100.0;
    if 0.0 <= margin {
      MulAtLeast(need, f);
    }
    if -100.0 <= margin {
      MulNonNegative(need, f);
    }
    if 0.0 <= margin <= 100.0 {
      MulAtMost(need, f, 2.0);
    }
  }

  /** `calculate_alert` for a product read from the store (`row`) or unknown (None). */
  function AlertSpec(articleId: int, row: Option<ProductRow>, latestStock: Option<int>, p: seq<nat>,
                     customLead: Option<int>, customPrice: Option<real>, margin: real): (r: AlertResult)
    ensures r.Failed? <==> row.None?
    ensures r.Evaluated? ==> r.leadTime != 0 && r.details.Tier() == Classify(r.stock, p, r.leadTime)
    ensures r.Evaluated? ==> r.stockAfterLead == r.stock - r.salesDuringLead && r.salesDuringLead == Sum(p, 0, r.leadTime)
    ensures r.Evaluated? && customLead.Some? && customLead.value != 0 ==> r.leadTime == customLead.value
    ensures r.Evaluated? && customPrice.Some? && customPrice.value != 0.0 ==> r.unitPrice == customPrice.value
    ensures r.Evaluated? ==> (r.estimatedLoss != 0 ==> r.details.Tier() == Critique)
                             && (r.benefitIfOrdered != 0 ==> r.details.Tier() == Attention)
    ensures r.Evaluated? ==> r.netNeed == (if Sum(p, 0, SuggestionHorizon) < r.stock then 0 else Sum(p, 0, SuggestionHorizon) - r.stock)
    ensures r.Evaluated? && -100.0 <= margin ==> 0 <= r.suggestedQuantity
    ensures r.Evaluated? && 0.0 <= margin ==> r.netNeed <= r.suggestedQuantity
  {
    match row
    case None => Failed(articleId)
    case Some(product) =>
      var stock := OrInt(latestStock, 0);
      var lead := OrInt(customLead, LeadTime(product));
      var price := OrReal(customPrice, UnitPrice(product));
      var horizon := if SuggestionHorizon < |p| then SuggestionHorizon else |p|;
      assert Sum(p, 0, horizon) == Sum(p, 0, SuggestionHorizon) by {
        if |p| <= SuggestionHorizon { SumBeyondHorizon(p, 0, SuggestionHorizon); }
      }
      Assemble(articleId, product.name, stock, lead, price, Sum(p, 0, lead), TierSpec(stock, p, lead, price),
               Sum(p, 0, horizon), margin)
  }

  /**
   * The evaluated alert once the lead-time sales, the tier details and the
   * sales of the suggestion horizon are known: the loss or the benefit of
   * the tier, the net need and the quantity grown by the margin.
   */
  function Assemble(articleId: int, name: string, stock: int, lead: int, price: real, salesLead: nat,
                    details: TierDetails, total: nat, margin: real): AlertResult {
    var need := if total - stock < 0 then 0 else total - stock;
    Evaluated(articleId, name, stock, lead, price, salesLead, stock - salesLead, details,
              if details.Tier() == Critique then details.Amount() else 0,
              if details.Tier() == Attention then details.Amount() else 0,
              SuggestedQuantity(need, margin), total, need, Trunc(Mul(need as real, margin) / 100.0))
  }

  // ---------------------------------------------------------------------
  // Properties of the specification

  /**
   * The tiers by how far the stock reaches: CRITIQUE when it does not cover
   * the lead time, ATTENTION when it covers the lead time but not three more
   * days, OK when it covers both.
   */
  lemma ClassifyByCoverage(stock: int, p: seq<nat>, lead: int)
    ensures Classify(stock, p, lead) == Critique <==> stock < Sum(p, 0, lead)
    ensures Classify(stock, p, lead) == Attention <==> Sum(p, 0, lead) <= stock < Sum(p, 0, lead + 3)
    ensures Classify(stock, p, lead) == Ok <==> Sum(p, 0, lead + 3) <= stock
  {
    if 0 <= lead {
      SumSplit(p, 0, lead, lead + 3);
    } else {
      SumBeforeHorizon(p, lead, lead + 3);
    }
  }

  /**
   * In the CRITIQUE tier the stockout is found inside the lead window (the
   * default is never used): it is the first day the running stock goes
   * negative, and the sales counted as lost cover at least the shortfall.
   */
  lemma CritiqueStockoutInsideLead(stock: int, p: seq<nat>, lead: int, price: real)
    requires 0 < lead && 0 <= stock
    requires Classify(stock, p, lead) == Critique
    ensures var d := CritiqueSpec(stock, p, lead, price);
      && 1 <= d.stockoutDay <= lead && d.stockoutDay <= |p|
      && stock < Sum(p, 0, d.stockoutDay)
      && (forall k :: 0 <= k < d.stockoutDay ==> Sum(p, 0, k) <= stock)
      && 1 <= d.stockoutDays <= lead
      && Sum(p, 0, lead) - stock <= d.lostSales
      && (0.0 <= price ==> 0 <= d.loss)
  {
    var n := PrefixLength(|p|, lead);
    assert Sum(p, 0, lead) == Sum(p, 0, n) by {
      if |p| < lead { SumBeyondHorizon(p, 0, lead); }
    }
    assert 0 < n;
    assert Hit(p, Stockout(stock), n - 1);
    FirstAtMost(p, Stockout(stock), 0, n, n - 1);
    var i := First(p, Stockout(stock), 0, n).value;
    var day := i + 1;
    forall k | 1 <= k < day
      ensures Sum(p, 0, k) <= stock
    {
      assert !Hit(p, Stockout(stock), k - 1);
    }
    SumSplit(p, 0, day - 1, lead);
    var d := CritiqueSpec(stock, p, lead, price);
    if 0.0 <= price {
      MulNonNegative(d.lostSales as real, price);
      RoundAtLeast(Mul(d.lostSales as real, price), 0);
    }
  }

  /**
   * In the ATTENTION tier the order deadline falls within three days, and
   * the benefit of ordering is the value of the lead-time demand.
   */
  lemma AttentionDeadlineWithinThreeDays(stock: int, p: seq<nat>, lead: int, price: real)
    requires 0 < lead
    requires Classify(stock, p, lead) == Attention
    ensures var d := AttentionSpec(stock, p, lead, price);
      && 0 <= d.orderDeadline <= 3
      && d.stockoutIfNoOrder == d.orderDeadline + lead
      && d.benefit == Round(Mul(Sum(p, 0, lead) as real, price))
      && d.savedSales == Sum(p, 0, lead)
  {
    ClassifyByCoverage(stock, p, lead);
    if 3 < |p| {
      assert Hit(p, Deadline(stock, lead), 3);
      FirstAtMost(p, Deadline(stock, lead), 0, |p|, 3);
    }
    var s := Sum(p, 0, lead) as real;
    var l := lead as real;
    MulDivCancel(s, l);
  }

  /** In the OK tier the earliest order date never follows the latest one. */
  lemma OkOrderWindowOrdered(stock: int, p: seq<nat>, lead: int)
    requires 0 <= lead
    ensures EarliestOrder(stock, p, lead) <= LatestOrder(stock, p, lead)
  {
    var c3 := First(p, Covered(stock, lead + 3), 0, |p|);
    var c1 := First(p, Covered(stock, lead + 1), 0, |p|);
    if c1.Some? {
      var i2 := c1.value;
      SumMonotone(p, 0, i2 + lead + 1, i2 + lead + 3);
      FirstAtMost(p, Covered(stock, lead + 3), 0, |p|, i2);
    } else if c3.Some? {
      var i1 := c3.value;
      assert !Hit(p, Covered(stock, lead + 1), |p| - 1);
      SumBeyondHorizon(p, 0, |p| + lead);
      SumAtMostTotal(p, i1 + lead + 3);
      assert false;
    }
  }

  /** In the OK tier the stock lasts through the lead time and three more days (or the whole horizon). */
  lemma OkStockLastsBeyondLead(stock: int, p: seq<nat>, lead: int)
    requires 0 <= lead
    requires Classify(stock, p, lead) == Ok
    ensures DaysOfStock(stock, p) >= lead + 3 || DaysOfStock(stock, p) == |p|
  {
    ClassifyByCoverage(stock, p, lead);
    var r := First(p, Stockout(stock), 0, |p|);
    if r.Some? && r.value < lead + 3 {
      SumMonotone(p, 0, r.value + 1, lead + 3);
    }
  }

  /** The days the stock lasts: the running stock stays non-negative through them and fails the next day. */
  lemma DaysOfStockIsFirstShortfall(stock: int, p: seq<nat>)
    ensures var n := DaysOfStock(stock, p);
      && n <= |p|
      && (forall k :: 1 <= k <= n ==> Sum(p, 0, k) <= stock)
      && (n < |p| ==> stock < Sum(p, 0, n + 1))
  {
    var n := DaysOfStock(stock, p);
    forall k | 1 <= k <= n
      ensures Sum(p, 0, k) <= stock
    {
      assert !Hit(p, Stockout(stock), k - 1);
    }
  }

  // ---------------------------------------------------------------------
  // The calculator

  /** `_sum_predictions`: adds the quantities of the days in [s, e). */
  method SumPredictions(p: seq<nat>, s: int, e: int) returns (total: nat)
    ensures total == Sum(p, s, e)
  {
    total := 0;
    var lo := if s < 0 then 0 else s;
    var i := 0;
    while i < |p|
      invariant 0 <= i <= |p|
      invariant total == Sum(p, lo, if e < i then e else i)
    {
      if s <= i < e {
        total := total + p[i];
      }
      i := i + 1;
    }
    if |p| < e {
      SumBeyondHorizon(p, lo, e);
    }
    if s < 0 {
      SumBeforeHorizon(p, s, e);
    }
  }

  /** `_calculate_critique`: walks the lead window until the running stock goes negative. */
  method CalculateCritique(stock: int, p: seq<nat>, lead: int, price: real) returns (d: TierDetails)
    ensures d == CritiqueSpec(stock, p, lead, price)
  {
    var window := p[..PrefixLength(|p|, lead)];
    var remaining := stock;
    var found: Option<int> := None;
    var i := 0;
    while i < |window|
      invariant 0 <= i <= |window|
      invariant remaining == stock - Sum(p, 0, i)
      invariant First(p, Stockout(stock), 0, |window|) == First(p, Stockout(stock), i, |window|)
    {
      remaining := remaining - window[i];
      if remaining < 0 {
        found := Some(i + 1);
        assert First(p, Stockout(stock), 0, |window|) == Some(i);
        break;
      }
      i := i + 1;
    }
    var day := if found.Some? then found.value else lead;
    var lost := SumPredictions(p, day - 1, lead);
    d := CritiqueDetails(day, lead - day + 1, lost, Round(Mul(lost as real, price)));
  }

  /** `_calculate_attention`: the first day whose remaining stock no longer exceeds its demand. */
  method CalculateAttention(stock: int, p: seq<nat>, lead: int, price: real) returns (d: TierDetails)
    requires lead != 0
    ensures d == AttentionSpec(stock, p, lead, price)
  {
    var found: Option<int> := None;
    var i := 0;
    while i < |p|
      invariant 0 <= i <= |p|
      invariant First(p, Deadline(stock, lead), 0, |p|) == First(p, Deadline(stock, lead), i, |p|)
    {
      var sold := SumPredictions(p, 0, i + lead);
      if stock - sold <= p[i] {
        found := Some(i);
        assert First(p, Deadline(stock, lead), 0, |p|) == Some(i);
        break;
      }
      i := i + 1;
    }
    var day := if found.Some? then found.value else 3;
    var leadSales := SumPredictions(p, 0, lead);
    var average := Div(leadSales as real, lead as real);
    var saved := Mul(lead as real, average);
    d := AttentionDetails(day, day + lead, Round(Mul(saved, price)), Round(saved));
  }

  /** The first day i whose sales up to day i + window reach the stock, as the two order-window loops search it. */
  method FirstCovered(stock: int, p: seq<nat>, window: int) returns (r: Option<nat>)
    ensures r == First(p, Covered(stock, window), 0, |p|)
  {
    var i := 0;
    while i < |p|
      invariant 0 <= i <= |p|
      invariant First(p, Covered(stock, window), 0, |p|) == First(p, Covered(stock, window), i, |p|)
    {
      var sold := SumPredictions(p, 0, i + window);
      if stock <= sold {
        assert First(p, Covered(stock, window), i, |p|) == Some(i);
        return Some(i);
      }
      i := i + 1;
    }
    r := None;
  }

  /** The days-of-stock loop: the running stock is decreased day by day until it goes negative. */
  method CountDaysOfStock(stock: int, p: seq<nat>) returns (daysLeft: nat)
    ensures daysLeft == DaysOfStock(stock, p)
  {
    daysLeft := 0;
    var remaining := stock;
    var j := 0;
    while j < |p|
      invariant 0 <= j <= |p|
      invariant remaining == stock - Sum(p, 0, j)
      invariant daysLeft == j
      invariant First(p, Stockout(stock), 0, |p|) == First(p, Stockout(stock), j, |p|)
    {
      remaining := remaining - p[j];
      if remaining < 0 {
        daysLeft := j;
        assert First(p, Stockout(stock), 0, |p|) == Some(j);
        return;
      }
      daysLeft := j + 1;
      j := j + 1;
    }
  }

  /** `_calculate_ok`: the order window from the two coverage searches, and the days of stock. */
  method CalculateOk(stock: int, p: seq<nat>, lead: int) returns (d: TierDetails)
    ensures d == OkSpec(stock, p, lead)
  {
    var first := FirstCovered(stock, p, lead + 3);
    var date1 := match first
      case Some(i) => if i - 1 < 0 then 0 else i - 1
      case None => 7;
    var last := FirstCovered(stock, p, lead + 1);
    var date2 := match last
      case Some(i) => i
      case None => if 14 < date1 + 7 then 14 else date1 + 7;
    var daysLeft := CountDaysOfStock(stock, p);
    d := OkDetails(date1, date2, daysLeft);
  }

  /** The tier branch of `calculate_alert`: the lead-time sales, the stock left after them, the tier details. */
  method ClassifyAndDetail(stock: int, p: seq<nat>, lead: int, price: real) returns (salesLead: nat, afterLead: int, details: TierDetails)
    requires lead != 0
    ensures salesLead == Sum(p, 0, lead) && afterLead == stock - salesLead
    ensures details == TierSpec(stock, p, lead, price)
  {
    salesLead := SumPredictions(p, 0, lead);
    var salesNext3 := SumPredictions(p, lead, lead + 3);
    afterLead := stock - salesLead;
    if afterLead < 0 {
      details := CalculateCritique(stock, p, lead, price);
    } else if afterLead < salesNext3 {
      details := CalculateAttention(stock, p, lead, price);
    } else {
      details := CalculateOk(stock, p, lead);
    }
  }

  /** `calculate_alert`: an unknown product gives the ERROR entry instead of raising. */
  method CalculateAlert(articleId: int, row: Option<ProductRow>, latestStock: Option<int>, p: seq<nat>,
                        customLead: Option<int>, customPrice: Option<real>, margin: real) returns (r: AlertResult)
    ensures r == AlertSpec(articleId, row, latestStock, p, customLead, customPrice, margin)
  {
    if row.None? {
      return Failed(articleId);
    }
    var product := row.value;
    var stock := OrInt(latestStock, 0);
    var lead := OrInt(customLead, LeadTime(product));
    var price := OrReal(customPrice, UnitPrice(product));

    var salesLead, afterLead, details := ClassifyAndDetail(stock, p, lead, price);

    var horizon := if SuggestionHorizon < |p| then SuggestionHorizon else |p|;
    var total := SumPredictions(p, 0, horizon);
    r := Assemble(articleId, product.name, stock, lead, price, salesLead, details, total, margin);
  }

  // ---------------------------------------------------------------------
  // Batch evaluation

  datatype AlertRequest = AlertRequest(articleId: int, predictions: seq<nat>, row: Option<ProductRow>, latestStock: Option<int>)

  datatype AlertSummary = AlertSummary(totalArticles: nat, critiques: nat, attention: nat, ok: nat)

  /** The entry `calculate_batch_alerts` produces for one request (no overrides, default margin). */
  function RequestSpec(q: AlertRequest): AlertResult {
    AlertSpec(q.articleId, q.row, q.latestStock, q.predictions, None, None, DefaultMargin)
  }

  /** Evaluated results of tier t. */
  function CountTier(rs: seq<AlertResult>, t: Tier): nat {
    if rs == [] then 0
    else CountTier(rs[..|rs| - 1], t) + (if rs[|rs| - 1].Evaluated? && rs[|rs| - 1].details.Tier() == t then 1 else 0)
  }

  function CountFailed(rs: seq<AlertResult>): nat {
    if rs == [] then 0
    else CountFailed(rs[..|rs| - 1]) + (if rs[|rs| - 1].Failed? then 1 else 0)
  }

  /** Every result is in exactly one tier or is an ERROR entry, so the tier counts never exceed the total. */
  lemma {:induction false} TierCountsPartition(rs: seq<AlertResult>)
    ensures CountTier(rs, Critique) + CountTier(rs, Attention) + CountTier(rs, Ok) + CountFailed(rs) == |rs|
  {
    if rs != [] {
      TierCountsPartition(rs[..|rs| - 1]);
    }
  }

  /** Appending a result counts it in its own tier only. */
  lemma CountTierSnoc(rs: seq<AlertResult>, r: AlertResult)
    ensures forall t :: CountTier(rs + [r], t) == CountTier(rs, t) + (if r.Evaluated? && r.details.Tier() == t then 1 else 0)
  {
    assert (rs + [r])[..|rs|] == rs;
  }

  /** `calculate_batch_alerts`: one entry per request, and per-tier counts that skip ERROR entries. */
  method CalculateBatchAlerts(items: seq<AlertRequest>) returns (alerts: seq<AlertResult>, summary: AlertSummary)
    ensures |alerts| == |items|
    ensures forall k :: 0 <= k < |items| ==> alerts[k] == RequestSpec(items[k])
    ensures summary == AlertSummary(|alerts|, CountTier(alerts, Critique), CountTier(alerts, Attention), CountTier(alerts, Ok))
    ensures summary.critiques + summary.attention + summary.ok <= summary.totalArticles
  {
    alerts := [];
    var critiques, attention, ok := 0, 0, 0;
    var i := 0;
    while i < |items|
      invariant 0 <= i <= |items|
      invariant |alerts| == i
      invariant forall k :: 0 <= k < i ==> alerts[k] == RequestSpec(items[k])
      invariant critiques == CountTier(alerts, Critique)
      invariant attention == CountTier(alerts, Attention)
      invariant ok == CountTier(alerts, Ok)
    {
      var item := items[i];
      var result := CalculateAlert(item.articleId, item.row, item.latestStock, item.predictions, None, None, DefaultMargin);
      assert result == RequestSpec(item);
      CountTierSnoc(alerts, result);
      assert forall k :: 0 <= k < i ==> (alerts + [result])[k] == alerts[k];
      alerts := alerts + [result];
      if result.Evaluated? {
        match result.details.Tier()
        case Critique => critiques := critiques + 1;
        case Attention => attention := attention + 1;
        case Ok => ok := ok + 1;
      }
      i := i + 1;
    }
    summary := AlertSummary(|alerts|, critiques, attention, ok);
    TierCountsPartition(alerts);
  }
}
