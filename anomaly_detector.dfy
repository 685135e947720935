/**
 * The anomaly detector as a class over the two tables it writes: the
 * anomalies table (rows by product and date, an id index and the next id),
 * the prediction-feedback table, and the reference MAPE the object keeps
 * between calls. Each method is proved against the table functions of
 * AnomalyTables; the forecasting model itself is replaced by the
 * (date, predicted, actual) observations it would produce.
 */
module AnomalyDetection {
  import opened Wrappers
  import opened Numeric
  import opened AnomalyRules
  import opened AnomalyTables

  /**
   * What one product of a scan brings: no observations when there is no
   * trained model for it, otherwise the sale days with their predictions.
   */
  datatype ProductScan = ProductScan(product: int, observations: Option<seq<Observation>>)

  /** The anomalies of every scanned product, product after product. */
  function ScanDetections(scans: seq<ProductScan>): seq<Detection> {
    if scans == [] then []
    else
      var last := scans[|scans| - 1];
      ScanDetections(scans[..|scans| - 1])
        + (if last.observations.Some? then Detections(last.product, last.observations.value) else [])
  }

  /** The number of compared days: one prediction per sale day of each product with a model. */
  function ScanPredictions(scans: seq<ProductScan>): nat {
    if scans == [] then 0
    else
      var last := scans[|scans| - 1];
      ScanPredictions(scans[..|scans| - 1]) + (if last.observations.Some? then |last.observations.value| else 0)
  }

  /** A scan never reports more anomalies than it compared days. */
  lemma {:induction false} ScanDetectionsAtMostPredictions(scans: seq<ProductScan>)
    ensures |ScanDetections(scans)| <= ScanPredictions(scans)
  {
    if scans != [] {
      var last := scans[|scans| - 1];
      ScanDetectionsAtMostPredictions(scans[..|scans| - 1]);
      if last.observations.Some? {
        DetectionsExact(last.product, last.observations.value);
      }
    }
  }

  /** The feedback rows of a full scan, each product linked against the same anomaly rows. */
  function ScanFeedback(fb: map<Key, Feedback>, rows: map<Key, Anomaly>, scans: seq<ProductScan>): map<Key, Feedback> {
    if scans == [] then fb
    else
      var last := scans[|scans| - 1];
      var prev := ScanFeedback(fb, rows, scans[..|scans| - 1]);
      if last.observations.Some? then SaveFeedback(prev, rows, last.product, last.observations.value) else prev
  }

  /** The (product, date) keys a scan compares. */
  function ScanKeys(scans: seq<ProductScan>): set<Key> {
    if scans == [] then {}
    else
      var last := scans[|scans| - 1];
      ScanKeys(scans[..|scans| - 1]) + (if last.observations.Some? then ObservedKeys(last.product, last.observations.value) else {})
  }

  /**
   * After a full scan every compared day has a feedback row back in
   * training, linked to the anomaly of that day in the given rows (for
   * `detect_historical_anomalies`, the rows from before the scan), and
   * feedback rows of days not compared are kept.
   */
  lemma {:induction false} ScanFeedbackEffect(fb: map<Key, Feedback>, rows: map<Key, Anomaly>, scans: seq<ProductScan>)
    ensures var r := ScanFeedback(fb, rows, scans);
      && r.Keys == fb.Keys + ScanKeys(scans)
      && (forall k :: k in fb && k !in ScanKeys(scans) ==> r[k] == fb[k])
      && (forall k :: k in ScanKeys(scans) ==>
            r[k].includedInTraining && r[k].anomalyId == (if k in rows then Some(rows[k].id) else None))
  {
    if scans != [] {
      var last := scans[|scans| - 1];
      var prev := ScanFeedback(fb, rows, scans[..|scans| - 1]);
      ScanFeedbackEffect(fb, rows, scans[..|scans| - 1]);
      if last.observations.Some? {
        SaveFeedbackEffect(prev, rows, last.product, last.observations.value);
      }
    }
  }

  /** The anomaly rate in percent, 0 when nothing was compared. */
  function RateOf(anomalies: nat, predictions: nat): (r: real)
    ensures anomalies <= predictions ==> 0.0 <= r <= 100.0
    ensures predictions == 0 ==> r == 0.0
    ensures r == 0.0 <== anomalies == 0
  {
    if predictions > 0 then
      var n := anomalies as real;
      var d := predictions as real;
      var q := Div(n, d);
      assert anomalies <= predictions ==> 0.0 <= q <= 1.0 by {
        MulDivCancel(n, d);
        DivNonNegative(n, d);
        if anomalies <= predictions && q > 1.0 {
          MulStrictMonotone(1.0, q, d);
        }
      }
      assert anomalies == 0 ==> q == 0.0 by {
        MulDivCancel(n, d);
      }
      q * 100.0
    else 0.0
  }

  /** What `detect_historical_anomalies` reports. */
  datatype ScanReport = ScanReport(productsAnalyzed: nat, totalPredictions: nat, anomaliesDetected: nat, anomalyRate: real)

  /** Both tables together. */
  datatype Store = Store(table: Table, feedback: map<Key, Feedback>)

  /**
   * `detect_new_anomalies_only` as a value: product after product, the
   * incremental save of its anomalies, then its feedback linked against the
   * rows as they are after that save.
   */
  function NewOnlyStore(s: Store, scans: seq<ProductScan>): Store {
    if scans == [] then s
    else
      var last := scans[|scans| - 1];
      var prev := NewOnlyStore(s, scans[..|scans| - 1]);
      if last.observations.Some? then
        var t := SaveNew(prev.table, Detections(last.product, last.observations.value));
        Store(t, SaveFeedback(prev.feedback, t.rows, last.product, last.observations.value))
      else prev
  }

  /** The number of anomalies `detect_new_anomalies_only` reports as new. */
  function NewOnlyCount(s: Store, scans: seq<ProductScan>): nat {
    if scans == [] then 0
    else
      var last := scans[|scans| - 1];
      var prev := NewOnlyStore(s, scans[..|scans| - 1]);
      NewOnlyCount(s, scans[..|scans| - 1])
        + (if last.observations.Some? then NewCount(prev.table, Detections(last.product, last.observations.value)) else 0)
  }

  /**
   * `detect_new_anomalies_only` keeps every existing anomaly with its id
   * and status, and leaves the classified ones (validated, ignored,
   * seasonal) exactly as they were.
   */
  lemma {:induction false} NewOnlyKeepsStatuses(s: Store, scans: seq<ProductScan>)
    ensures var r := NewOnlyStore(s, scans).table;
      && (forall k :: k in s.table.rows ==> k in r.rows && r.rows[k].status == s.table.rows[k].status && r.rows[k].id == s.table.rows[k].id)
      && (forall k :: k in s.table.rows && s.table.rows[k].status != Pending ==> r.rows[k] == s.table.rows[k])
  {
    if scans != [] {
      var last := scans[|scans| - 1];
      var prev := NewOnlyStore(s, scans[..|scans| - 1]);
      NewOnlyKeepsStatuses(s, scans[..|scans| - 1]);
      if last.observations.Some? {
        SaveNewPreservesClassified(prev.table, Detections(last.product, last.observations.value));
      }
    }
  }

  /** The count `detect_new_anomalies_only` reports is the number of anomaly rows it added. */
  lemma {:induction false} NewOnlyCountsAddedRows(s: Store, scans: seq<ProductScan>)
    ensures |NewOnlyStore(s, scans).table.rows| == |s.table.rows| + NewOnlyCount(s, scans)
  {
    if scans != [] {
      var last := scans[|scans| - 1];
      var prev := NewOnlyStore(s, scans[..|scans| - 1]);
      NewOnlyCountsAddedRows(s, scans[..|scans| - 1]);
      if last.observations.Some? {
        SaveNewCount(prev.table, Detections(last.product, last.observations.value));
      }
    }
  }

  lemma {:induction false} NewOnlyWellIndexed(s: Store, scans: seq<ProductScan>)
    requires WellIndexed(s.table)
    ensures WellIndexed(NewOnlyStore(s, scans).table)
  {
    if scans != [] {
      var last := scans[|scans| - 1];
      NewOnlyWellIndexed(s, scans[..|scans| - 1]);
      if last.observations.Some? {
        SaveNewValid(NewOnlyStore(s, scans[..|scans| - 1]).table, Detections(last.product, last.observations.value));
      }
    }
  }

  /** What `detect_new_anomalies_only` reports. */
  datatype NewOnlyReport = NewOnlyReport(productsAnalyzed: nat, totalPredictions: nat, newAnomalies: nat)

  class ProphetAnomalyDetector {
    /** The anomalies table: rows by (product, date), the id index, the next id. */
    var rows: map<Key, Anomaly>
    var index: map<nat, Key>
    var nextId: nat
    /** The prediction_feedback table. */
    var feedback: map<Key, Feedback>
    /** The clean MAPE recorded as the reference for improvements, once one is recorded. */
    var referenceMape: Option<real>

    function Anomalies(): Table
      reads this
    {
      Table(rows, index, nextId)
    }

    /** The id index agrees with the rows, as the table's primary key guarantees. */
    predicate Valid()
      reads this
    {
      WellIndexed(Anomalies())
    }

    /** A detector over existing tables, with no reference MAPE yet. */
    constructor(t: Table, fb: map<Key, Feedback>)
      requires WellIndexed(t)
      ensures Valid() && Anomalies() == t && feedback == fb && referenceMape == None
    {
      rows := t.rows;
      index := t.index;
      nextId := t.nextId;
      feedback := fb;
      referenceMape := None;
    }

    /** `_detect_anomalies_in_predictions`: the flagged days, in day order. */
    method DetectAnomaliesInPredictions(product: int, obs: seq<Observation>) returns (ds: seq<Detection>)
      ensures ds == Detections(product, obs)
    {
      ds := [];
      var i := 0;
      while i < |obs|
        invariant 0 <= i <= |obs|
        invariant ds == Detections(product, obs[..i])
      {
        assert obs[..i + 1][..i] == obs[..i];
        var o := obs[i];
        var skip := false;
        var deviation := 0.0;
        if o.predicted == 0.0 {
          if o.actual > UnpredictedSaleFloor {
            deviation := 1.0;
          } else {
            skip := true;
          }
        } else {
          deviation := Div(Abs(o.actual - o.predicted), o.predicted);
        }
        if !skip && deviation > Threshold {
          var kind := if o.actual > o.predicted then Spike else Drop;
          ds := ds + [Detection(product, o.date, o.actual, o.predicted, deviation * 100.0, kind, SeverityOf(deviation))];
        }
        i := i + 1;
      }
      assert obs[..|obs|] == obs;
    }

    /** `_save_anomalies_to_db`: each anomaly overwrites the row of its day and puts it back to pending, or is inserted. */
    method SaveAnomaliesToDb(ds: seq<Detection>)
      requires Valid()
      modifies this
      ensures Valid()
      ensures Anomalies() == SaveAll(old(Anomalies()), ds)
      ensures feedback == old(feedback) && referenceMape == old(referenceMape)
    {
      var i := 0;
      while i < |ds|
        invariant 0 <= i <= |ds|
        invariant Anomalies() == SaveAll(old(Anomalies()), ds[..i])
        invariant feedback == old(feedback) && referenceMape == old(referenceMape)
      {
        assert ds[..i + 1][..i] == ds[..i];
        var d := ds[i];
        var k := KeyOf(d);
        if k in rows {
          rows := rows[k := Refresh(rows[k], d).(status := Pending)];
        } else {
          rows := rows[k := Anomaly(nextId, d.actual, d.predicted, d.deviationPercent, d.kind, d.severity, Pending)];
          index := index[nextId := k];
          nextId := nextId + 1;
        }
        i := i + 1;
      }
      assert ds[..|ds|] == ds;
      SaveAllValid(old(Anomalies()), ds);
    }

    /**
     * `_save_new_anomalies_only`: new days are inserted as pending, pending
     * rows get the new values, classified rows are skipped; returns the
     * number inserted.
     */
    method SaveNewAnomaliesOnly(ds: seq<Detection>) returns (count: nat)
      requires Valid()
      modifies this
      ensures Valid()
      ensures Anomalies() == SaveNew(old(Anomalies()), ds) && count == NewCount(old(Anomalies()), ds)
      ensures feedback == old(feedback) && referenceMape == old(referenceMape)
    {
      count := 0;
      var i := 0;
      while i < |ds|
        invariant 0 <= i <= |ds|
        invariant Anomalies() == SaveNew(old(Anomalies()), ds[..i]) && count == NewCount(old(Anomalies()), ds[..i])
        invariant feedback == old(feedback) && referenceMape == old(referenceMape)
      {
        assert ds[..i + 1][..i] == ds[..i];
        var d := ds[i];
        var k := KeyOf(d);
        if k in rows {
          if rows[k].status == Pending {
            rows := rows[k := Refresh(rows[k], d)];
          }
        } else {
          rows := rows[k := Anomaly(nextId, d.actual, d.predicted, d.deviationPercent, d.kind, d.severity, Pending)];
          index := index[nextId := k];
          nextId := nextId + 1;
          count := count + 1;
        }
        i := i + 1;
      }
      assert ds[..|ds|] == ds;
      SaveNewValid(old(Anomalies()), ds);
    }

    /** `_save_prediction_feedback`: one row per day with its error, the same-day anomaly id, and back in training. */
    method SavePredictionFeedback(product: int, obs: seq<Observation>)
      modifies this
      ensures feedback == SaveFeedback(old(feedback), rows, product, obs)
      ensures Anomalies() == old(Anomalies()) && referenceMape == old(referenceMape)
    {
      var i := 0;
      while i < |obs|
        invariant 0 <= i <= |obs|
        invariant feedback == SaveFeedback(old(feedback), rows, product, obs[..i])
        invariant Anomalies() == old(Anomalies()) && referenceMape == old(referenceMape)
      {
        assert obs[..i + 1][..i] == obs[..i];
        var o := obs[i];
        var k := Key(product, o.date);
        var anomalyId := if k in rows then Some(rows[k].id) else None;
        feedback := feedback[k := Feedback(o.predicted, o.actual, FeedbackMape(o.predicted, o.actual), anomalyId, true)];
        i := i + 1;
      }
      assert obs[..|obs|] == obs;
    }

    /**
     * `detect_historical_anomalies`: every product with a model and sales
     * is compared and its feedback saved; the anomalies of all products are
     * saved at the end, so this run's feedback links only to anomalies that
     * existed before it.
     */
    method DetectHistoricalAnomalies(scans: seq<ProductScan>) returns (report: ScanReport)
      requires Valid()
      modifies this
      ensures Valid()
      ensures feedback == ScanFeedback(old(feedback), old(rows), scans)
      ensures Anomalies() == SaveAll(old(Anomalies()), ScanDetections(scans))
      ensures referenceMape == old(referenceMape)
      ensures report == ScanReport(|scans|, ScanPredictions(scans), |ScanDetections(scans)|,
                                   RateOf(|ScanDetections(scans)|, ScanPredictions(scans)))
    {
      var found: seq<Detection> := [];
      var total := 0;
      var i := 0;
      while i < |scans|
        invariant 0 <= i <= |scans|
        invariant found == ScanDetections(scans[..i]) && total == ScanPredictions(scans[..i])
        invariant feedback == ScanFeedback(old(feedback), old(rows), scans[..i])
        invariant Anomalies() == old(Anomalies()) && referenceMape == old(referenceMape)
      {
        assert scans[..i + 1][..i] == scans[..i];
        var scan := scans[i];
        if scan.observations.Some? && scan.observations.value != [] {
          var obs := scan.observations.value;
          var ds := DetectAnomaliesInPredictions(scan.product, obs);
          found := found + ds;
          total := total + |obs|;
          SavePredictionFeedback(scan.product, obs);
        }
        i := i + 1;
      }
      assert scans[..|scans|] == scans;
      if found != [] {
        SaveAnomaliesToDb(found);
      }
      report := ScanReport(|scans|, total, |found|, RateOf(|found|, total));
    }

    /**
     * `detect_new_anomalies_only`: product after product, the incremental
     * save of its anomalies and then its feedback; returns the number of
     * anomalies inserted.
     */
    method DetectNewAnomaliesOnly(scans: seq<ProductScan>) returns (report: NewOnlyReport)
      requires Valid()
      modifies this
      ensures Valid()
      ensures Store(Anomalies(), feedback) == NewOnlyStore(old(Store(Anomalies(), feedback)), scans)
      ensures referenceMape == old(referenceMape)
      ensures report == NewOnlyReport(|scans|, ScanPredictions(scans), NewOnlyCount(old(Store(Anomalies(), feedback)), scans))
    {
      var newCount := 0;
      var total := 0;
      var i := 0;
      while i < |scans|
        invariant 0 <= i <= |scans|
        invariant Valid()
        invariant Store(Anomalies(), feedback) == NewOnlyStore(old(Store(Anomalies(), feedback)), scans[..i])
        invariant newCount == NewOnlyCount(old(Store(Anomalies(), feedback)), scans[..i])
        invariant total == ScanPredictions(scans[..i])
        invariant referenceMape == old(referenceMape)
      {
        assert scans[..i + 1][..i] == scans[..i];
        var scan := scans[i];
        if scan.observations.Some? && scan.observations.value != [] {
          var obs := scan.observations.value;
          var ds := DetectAnomaliesInPredictions(scan.product, obs);
          var added := SaveNewAnomaliesOnly(ds);
          newCount := newCount + added;
          total := total + |obs|;
          SavePredictionFeedback(scan.product, obs);
        }
        i := i + 1;
      }
      assert scans[..|scans|] == scans;
      report := NewOnlyReport(|scans|, total, newCount);
    }

    /**
     * `calculate_clean_mape`: the average error of the feedback days in the
     * period whose anomaly, if any, is not ignored, with the improvement over
     * the reference MAPE.
     */
    method CalculateCleanMape(start: Option<int>, end: Option<int>) returns (report: MapeReport)
      ensures report == ReportOf(CleanAverage(feedback, rows, start, end), |Counted(feedback, rows, start, end)|, 0, referenceMape)
      ensures report.anomaliesExcluded == 0
    {
      var counted := Counted(feedback, rows, start, end);
      var rest := counted;
      var sum := 0.0;
      var ignored := 0;
      while rest != {}
        invariant rest <= counted
        invariant sum + MapeSum(feedback, rest) == MapeSum(feedback, counted)
        invariant ignored == 0
        decreases |rest|
      {
        var k :| k in rest;
        MapeSumRemove(feedback, rest, k);
        sum := sum + feedback[k].mape;
        ignored := ignored + (if k in rows && rows[k].status == Ignored then 1 else 0);
        rest := rest - {k};
      }
      var average := if |counted| == 0 then 0.0 else sum / |counted| as real;
      report := ReportOf(average, |counted|, ignored, referenceMape);
    }

    /** `track_improvement`: records the current clean MAPE, rounded, as the reference. */
    method TrackImprovement()
      modifies this
      ensures referenceMape == Some(RoundTo(CleanAverage(feedback, rows, None, None), 100))
      ensures Anomalies() == old(Anomalies()) && feedback == old(feedback)
    {
      var report := CalculateCleanMape(None, None);
      referenceMape := Some(report.cleanMape);
    }

    /**
     * `update_anomaly_status`: false for an unknown id; otherwise the status
     * is set, ignoring takes the anomaly's feedback rows out of training, and
     * the first change records the reference MAPE.
     */
    method UpdateAnomalyStatus(id: int, status: Status) returns (ok: bool)
      requires Valid()
      modifies this
      ensures Valid()
      ensures ok <==> 0 <= id && id as nat in old(index)
      ensures !ok ==> Anomalies() == old(Anomalies()) && feedback == old(feedback) && referenceMape == old(referenceMape)
      ensures ok ==> var k := old(index)[id as nat];
        && Anomalies() == WithStatus(old(Anomalies()), k, status)
        && feedback == (if status == Ignored then IgnoreCascade(old(feedback), id as nat) else old(feedback))
        && referenceMape == (if old(referenceMape).None? then Some(RoundTo(CleanAverage(feedback, rows, None, None), 100))
                             else old(referenceMape))
    {
      if id < 0 || id as nat !in index {
        return false;
      }
      var k := index[id as nat];
      WithStatusWellIndexed(Anomalies(), k, status);
      var t := WithStatus(Anomalies(), k, status);
      rows := t.rows;
      if status == Ignored {
        feedback := IgnoreCascade(feedback, id as nat);
      }
      if referenceMape.None? {
        TrackImprovement();
      }
      ok := true;
    }

    /** The pending anomalies of known products, by decreasing deviation, each once. */
    method CollectPending(names: map<int, string>) returns (all: seq<PendingRow>)
      requires Valid()
      ensures SortedDesc(all) && Distinct(all)
      ensures forall x :: x in all <==> x in PendingAmong(rows, names, rows.Keys)
    {
      all := [];
      var rest := rows.Keys;
      while rest != {}
        invariant rest <= rows.Keys
        invariant SortedDesc(all) && Distinct(all)
        invariant forall x :: x in all <==> x in PendingAmong(rows, names, rows.Keys - rest)
        decreases |rest|
      {
        var k :| k in rest;
        var done := rows.Keys - rest;
        assert rows.Keys - (rest - {k}) == done + {k};
        if rows[k].status == Pending && k.product in names {
          CollectPendingStep(Anomalies(), names, done, k, all);
          all := InsertDesc(all, RowOf(k, rows[k], names[k.product]));
        } else {
          PendingAmongAdd(rows, names, done, k);
        }
        rest := rest - {k};
      }
      assert rows.Keys - rest == rows.Keys;
    }

    /**
     * `get_pending_anomalies`: the pending anomalies of known products by
     * decreasing deviation, at most `limit` of them (all of them for a
     * negative limit, as SQLite reads LIMIT -1).
     */
    method GetPendingAnomalies(limit: int, names: map<int, string>) returns (rs: seq<PendingRow>)
      requires Valid()
      ensures SortedDesc(rs) && Distinct(rs)
      ensures forall x :: x in rs ==> x in PendingAmong(rows, names, rows.Keys)
      ensures 0 <= limit ==> |rs| <= limit
      ensures limit < 0 || |rs| < limit ==> forall x :: x in PendingAmong(rows, names, rows.Keys) ==> x in rs
      ensures forall x, y :: x in PendingAmong(rows, names, rows.Keys) && x !in rs && y in rs ==> x.deviationPercent <= y.deviationPercent
    {
      var all := CollectPending(names);
      if 0 <= limit < |all| {
        rs := all[..limit];
        forall x, y | x in all && x !in rs && y in rs
          ensures x.deviationPercent <= y.deviationPercent
        {
          var i :| 0 <= i < |all| && all[i] == x;
          var j :| 0 <= j < |rs| && rs[j] == y;
          assert all[j] == y;
        }
      } else {
        rs := all;
      }
    }
  }
}
