/**
 * The pure rules of the anomaly detector: how far an actual sale is from
 * its prediction, when that gap is an anomaly, its type and severity, and
 * the per-day error stored in the feedback table.
 */
module AnomalyRules {
  import opened Wrappers
  import opened Numeric

  datatype Status = Pending | Validated | Ignored | Seasonal
  datatype Kind = Spike | Drop
  datatype Severity = Low | Medium | High | Critical
  {
    function Rank(): nat {
      match this
      case Low => 0
      case Medium => 1
      case High => 2
      case Critical => 3
    }
  }

  /** One day of a product: the predicted and the actual sales (the prediction joined with the sale on the date). */
  datatype Observation = Observation(date: int, predicted: real, actual: real)

  /** A flagged day, as `_detect_anomalies_in_predictions` reports it. */
  datatype Detection = Detection(product: int, date: int, actual: real, predicted: real,
                                 deviationPercent: real, kind: Kind, severity: Severity)

  /** The relative gap above which a day is an anomaly (50%). */
  const Threshold: real := 0.5
  /** With nothing predicted, a sale above this counts as a full (100%) deviation. */
  const UnpredictedSaleFloor: real := 5.0

  /**
   * The relative gap |actual - predicted| / predicted; with a zero
   * prediction, 1.0 for a sale above 5 and no value (the day is skipped)
   * otherwise.
   */
  function Deviation(o: Observation): (r: Option<real>)
    ensures o.predicted == 0.0 ==> (r.Some? <==> o.actual > UnpredictedSaleFloor) && (r.Some? ==> r.value == 1.0)
    ensures o.predicted != 0.0 ==> r == Some(Div(Abs(o.actual - o.predicted), o.predicted))
  {
    if o.predicted == 0.0 then
      if o.actual > UnpredictedSaleFloor then Some(1.0) else None
    else Some(Div(Abs(o.actual - o.predicted), o.predicted))
  }

  /** `_calculate_severity`: critical above 2.0, high above 1.0, medium above 0.75, low otherwise. */
  function SeverityOf(deviation: real): (s: Severity)
    ensures s == Critical <==> deviation > 2.0
    ensures s == High <==> 1.0 < deviation <= 2.0
    ensures s == Medium <==> 0.75 < deviation <= 1.0
    ensures s == Low <==> deviation <= 0.75
  {
    if deviation > 2.0 then Critical
    else if deviation > 1.0 then High
    else if deviation > 0.75 then Medium
    else Low
  }

  /** A larger deviation never gets a lower severity. */
  lemma SeverityMonotone(d1: real, d2: real)
    requires d1 <= d2
    ensures SeverityOf(d1).Rank() <= SeverityOf(d2).Rank()
  {
  }

  /** The anomaly a day gives, if its deviation exceeds the threshold. */
  function Detect(product: int, o: Observation): (r: Option<Detection>)
    ensures r.Some? <==> Deviation(o).Some? && Deviation(o).value > Threshold
    ensures r.Some? ==> r.value.product == product && r.value.date == o.date
                        && r.value.actual == o.actual && r.value.predicted == o.predicted
    ensures r.Some? ==> (r.value.kind == Spike <==> o.actual > o.predicted)
    ensures r.Some? ==> r.value.deviationPercent == Deviation(o).value * 100.0
                        && r.value.severity == SeverityOf(Deviation(o).value)
                        && 50.0 < r.value.deviationPercent
  {
    match Deviation(o)
    case None => None
    case Some(d) =>
      if d > Threshold then
        Some(Detection(product, o.date, o.actual, o.predicted, d * 100.0,
                       if o.actual > o.predicted then Spike else Drop, SeverityOf(d)))
      else None
  }

  /**
   * For a positive prediction, a day is flagged exactly when the actual sale
   * falls outside (50%, 150%) of the prediction; for a negative prediction it
   * never is; for a zero prediction exactly when more than 5 sold.
   */
  lemma DetectByRatio(product: int, o: Observation)
    ensures o.predicted > 0.0 ==>
      (Detect(product, o).Some? <==> o.actual > 1.5 * o.predicted || o.actual < 0.5 * o.predicted)
    ensures o.predicted < 0.0 ==> Detect(product, o).None?
    ensures o.predicted == 0.0 ==> (Detect(product, o).Some? <==> o.actual > UnpredictedSaleFloor)
  {
    var p := o.predicted;
    var gap := Abs(o.actual - p);
    if p != 0.0 {
      MulDivCancel(gap, p);
      var d := Div(gap, p);
      if p > 0.0 {
        if d > Threshold {
          MulStrictMonotone(Threshold, d, p);
        } else {
          MulMonotone(d, Threshold, p);
        }
      }
    }
  }

  /** `_detect_anomalies_in_predictions` as a value: the anomalies of the days, in day order. */
  function Detections(product: int, obs: seq<Observation>): seq<Detection> {
    if obs == [] then []
    else
      var last := Detect(product, obs[|obs| - 1]);
      Detections(product, obs[..|obs| - 1]) + (if last.Some? then [last.value] else [])
  }

  /**
   * Every reported anomaly comes from a flagged day, every flagged day is
   * reported, and there are no more anomalies than days.
   */
  lemma {:induction false} DetectionsExact(product: int, obs: seq<Observation>)
    ensures |Detections(product, obs)| <= |obs|
    ensures forall x :: x in Detections(product, obs) ==> exists k :: 0 <= k < |obs| && Detect(product, obs[k]) == Some(x)
    ensures forall k :: 0 <= k < |obs| && Detect(product, obs[k]).Some? ==> Detect(product, obs[k]).value in Detections(product, obs)
  {
    if obs != [] {
      var init := obs[..|obs| - 1];
      DetectionsExact(product, init);
      forall x | x in Detections(product, obs)
        ensures exists k :: 0 <= k < |obs| && Detect(product, obs[k]) == Some(x)
      {
        if x in Detections(product, init) {
          var k :| 0 <= k < |init| && Detect(product, init[k]) == Some(x);
          assert obs[k] == init[k];
        } else {
          assert Detect(product, obs[|obs| - 1]) == Some(x);
        }
      }
      forall k | 0 <= k < |obs| && Detect(product, obs[k]).Some?
        ensures Detect(product, obs[k]).value in Detections(product, obs)
      {
        if k < |init| {
          assert obs[k] == init[k];
        }
      }
    }
  }

  /**
   * The per-day error written to the feedback table, in percent:
   * |actual - predicted| / actual × 100, or with no sale 100 when something
   * was predicted and 0 otherwise.
   */
  function FeedbackMape(predicted: real, actual: real): (m: real)
    ensures actual == 0.0 ==> (m == 100.0 <==> predicted > 0.0) && (m == 0.0 <==> predicted <= 0.0)
    ensures actual > 0.0 ==> 0.0 <= m
    ensures actual != 0.0 && predicted == actual ==> m == 0.0
  {
    if actual != 0.0 then
      var m := Div(Abs(actual - predicted), actual) * 100.0;
      assert actual > 0.0 ==> 0.0 <= m by {
        if actual > 0.0 {
          DivNonNegative(Abs(actual - predicted), actual);
        }
      }
      m
    else if predicted > 0.0 then 100.0
    else 0.0
  }
}
