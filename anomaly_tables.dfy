/**
 * The two tables the anomaly detector keeps, as values: the anomalies
 * table (one row per product and date, with an id index) and the
 * prediction-feedback table. The functions here are the specifications the
 * detector's methods are proved against, and the lemmas state what the two
 * save policies, the status cascade and the clean-MAPE aggregate promise.
 */
module AnomalyTables {
  import opened Wrappers
  import opened Numeric
  import opened AnomalyRules

  datatype Key = Key(product: int, date: int)

  function KeyOf(d: Detection): Key {
    Key(d.product, d.date)
  }

  /** The keys of a sequence of detections. */
  function KeysOf(ds: seq<Detection>): set<Key> {
    set i | 0 <= i < |ds| :: KeyOf(ds[i])
  }

  lemma KeysOfSnoc(ds: seq<Detection>)
    requires ds != []
    ensures KeysOf(ds) == KeysOf(ds[..|ds| - 1]) + {KeyOf(ds[|ds| - 1])}
  {
    var init := ds[..|ds| - 1];
    forall k | k in KeysOf(ds)
      ensures k in KeysOf(init) + {KeyOf(ds[|ds| - 1])}
    {
      var i :| 0 <= i < |ds| && k == KeyOf(ds[i]);
      if i < |init| {
        assert ds[i] == init[i];
      }
    }
    forall k | k in KeysOf(init)
      ensures k in KeysOf(ds)
    {
      var i :| 0 <= i < |init| && k == KeyOf(init[i]);
      assert ds[i] == init[i];
    }
  }

  /** A row of the anomalies table. */
  datatype Anomaly = Anomaly(id: nat, actual: real, predicted: real, deviationPercent: real,
                             kind: Kind, severity: Severity, status: Status)

  /** The anomalies table: rows by (product, date), the id index, and the next id the store hands out. */
  datatype Table = Table(rows: map<Key, Anomaly>, index: map<nat, Key>, nextId: nat)

  /** The id index and the rows agree, and every id is below the next one to be handed out. */
  predicate WellIndexed(t: Table) {
    && (forall id :: id in t.index ==> id < t.nextId && t.index[id] in t.rows && t.rows[t.index[id]].id == id)
    && (forall k :: k in t.rows ==> t.rows[k].id in t.index && t.index[t.rows[k].id] == k)
  }

  /** The row holds the values of the detection. */
  predicate Carries(a: Anomaly, d: Detection) {
    a.actual == d.actual && a.predicted == d.predicted && a.deviationPercent == d.deviationPercent
    && a.kind == d.kind && a.severity == d.severity
  }

  /** The row with the detection's values written over it (id and status kept). */
  function Refresh(a: Anomaly, d: Detection): Anomaly {
    a.(actual := d.actual, predicted := d.predicted, deviationPercent := d.deviationPercent,
       kind := d.kind, severity := d.severity)
  }

  /** A new pending row for the detection, under the next id. */
  function Insert(t: Table, d: Detection): Table {
    Table(t.rows[KeyOf(d) := Anomaly(t.nextId, d.actual, d.predicted, d.deviationPercent, d.kind, d.severity, Pending)],
          t.index[t.nextId := KeyOf(d)], t.nextId + 1)
  }

  /** One step of `_save_anomalies_to_db`: an existing row is overwritten and reset to pending, an absent one inserted. */
  function UpsertReset(t: Table, d: Detection): Table {
    var k := KeyOf(d);
    if k in t.rows then t.(rows := t.rows[k := Refresh(t.rows[k], d).(status := Pending)])
    else Insert(t, d)
  }

  function SaveAll(t: Table, ds: seq<Detection>): Table {
    if ds == [] then t else UpsertReset(SaveAll(t, ds[..|ds| - 1]), ds[|ds| - 1])
  }

  /**
   * One step of `_save_new_anomalies_only`: a pending row gets the new
   * values, a classified one is left alone, an absent key is inserted.
   */
  function UpsertKeep(t: Table, d: Detection): Table {
    var k := KeyOf(d);
    if k !in t.rows then Insert(t, d)
    else if t.rows[k].status == Pending then t.(rows := t.rows[k := Refresh(t.rows[k], d)])
    else t
  }

  function SaveNew(t: Table, ds: seq<Detection>): Table {
    if ds == [] then t else UpsertKeep(SaveNew(t, ds[..|ds| - 1]), ds[|ds| - 1])
  }

  /** The counter `_save_new_anomalies_only` returns: one per insertion. */
  function NewCount(t: Table, ds: seq<Detection>): nat {
    if ds == [] then 0
    else NewCount(t, ds[..|ds| - 1]) + (if KeyOf(ds[|ds| - 1]) in SaveNew(t, ds[..|ds| - 1]).rows then 0 else 1)
  }

  // ---------------------------------------------------------------------
  // Full save

  lemma InsertValid(t: Table, d: Detection)
    requires WellIndexed(t) && KeyOf(d) !in t.rows
    ensures WellIndexed(Insert(t, d))
  {
    var r := Insert(t, d);
    forall id | id in r.index
      ensures id < r.nextId && r.index[id] in r.rows && r.rows[r.index[id]].id == id
    {
      if id != t.nextId {
        assert t.index[id] != KeyOf(d);
      }
    }
  }

  lemma UpsertResetValid(t: Table, d: Detection)
    requires WellIndexed(t)
    ensures WellIndexed(UpsertReset(t, d))
  {
    if KeyOf(d) !in t.rows {
      InsertValid(t, d);
    }
  }

  /** `_save_anomalies_to_db` keeps the id index consistent with the rows. */
  lemma {:induction false} SaveAllValid(t: Table, ds: seq<Detection>)
    requires WellIndexed(t)
    ensures WellIndexed(SaveAll(t, ds))
  {
    if ds != [] {
      SaveAllValid(t, ds[..|ds| - 1]);
      UpsertResetValid(SaveAll(t, ds[..|ds| - 1]), ds[|ds| - 1]);
    }
  }

  /**
   * `_save_anomalies_to_db`: every detected key ends up with a row, rows of
   * keys not detected are kept, and existing rows keep their ids.
   */
  lemma {:induction false} SaveAllFrame(t: Table, ds: seq<Detection>)
    ensures var r := SaveAll(t, ds);
      && r.rows.Keys == t.rows.Keys + KeysOf(ds)
      && (forall k :: k in t.rows && k !in KeysOf(ds) ==> r.rows[k] == t.rows[k])
      && (forall k :: k in t.rows ==> r.rows[k].id == t.rows[k].id)
  {
    if ds != [] {
      SaveAllFrame(t, ds[..|ds| - 1]);
      KeysOfSnoc(ds);
    }
  }

  /** Every detected key is pending after the full save, whatever its status was before. */
  lemma {:induction false} SaveAllResetsToPending(t: Table, ds: seq<Detection>)
    ensures forall i :: 0 <= i < |ds| ==> KeyOf(ds[i]) in SaveAll(t, ds).rows && SaveAll(t, ds).rows[KeyOf(ds[i])].status == Pending
  {
    if ds != [] {
      var init := ds[..|ds| - 1];
      var prev := SaveAll(t, init);
      SaveAllResetsToPending(t, init);
      forall i | 0 <= i < |ds| - 1
        ensures KeyOf(ds[i]) in SaveAll(t, ds).rows && SaveAll(t, ds).rows[KeyOf(ds[i])].status == Pending
      {
        assert ds[i] == init[i];
      }
    }
  }

  /** After the full save a detected key holds the values of its last detection. */
  lemma {:induction false} SaveAllLastWins(t: Table, ds: seq<Detection>)
    ensures forall i :: 0 <= i < |ds| && (forall j :: i < j < |ds| ==> KeyOf(ds[j]) != KeyOf(ds[i]))
              ==> KeyOf(ds[i]) in SaveAll(t, ds).rows && Carries(SaveAll(t, ds).rows[KeyOf(ds[i])], ds[i])
  {
    if ds != [] {
      var init := ds[..|ds| - 1];
      var last := ds[|ds| - 1];
      var prev := SaveAll(t, init);
      var r := SaveAll(t, ds);
      assert r == UpsertReset(prev, last);
      SaveAllLastWins(t, init);
      forall i | 0 <= i < |ds| && (forall j :: i < j < |ds| ==> KeyOf(ds[j]) != KeyOf(ds[i]))
        ensures KeyOf(ds[i]) in r.rows && Carries(r.rows[KeyOf(ds[i])], ds[i])
      {
        if i < |init| {
          assert ds[i] == init[i];
          assert KeyOf(last) != KeyOf(ds[i]);
          forall j | i < j < |init|
            ensures KeyOf(init[j]) != KeyOf(init[i])
          {
            assert init[j] == ds[j];
          }
          assert KeyOf(ds[i]) in prev.rows && Carries(prev.rows[KeyOf(ds[i])], ds[i]);
        }
      }
    }
  }

  // ---------------------------------------------------------------------
  // Incremental save

  lemma UpsertKeepValid(t: Table, d: Detection)
    requires WellIndexed(t)
    ensures WellIndexed(UpsertKeep(t, d))
  {
    if KeyOf(d) !in t.rows {
      InsertValid(t, d);
    }
  }

  /** `_save_new_anomalies_only` keeps the id index consistent with the rows. */
  lemma {:induction false} SaveNewValid(t: Table, ds: seq<Detection>)
    requires WellIndexed(t)
    ensures WellIndexed(SaveNew(t, ds))
  {
    if ds != [] {
      SaveNewValid(t, ds[..|ds| - 1]);
      UpsertKeepValid(SaveNew(t, ds[..|ds| - 1]), ds[|ds| - 1]);
    }
  }

  /** One incremental step grows the table exactly when the key was new. */
  lemma UpsertKeepCount(t: Table, d: Detection)
    ensures |UpsertKeep(t, d).rows| == |t.rows| + (if KeyOf(d) in t.rows then 0 else 1)
  {
  }

  /** `_save_new_anomalies_only` leaves a row for every detected key. */
  lemma {:induction false} SaveNewKeys(t: Table, ds: seq<Detection>)
    ensures SaveNew(t, ds).rows.Keys == t.rows.Keys + KeysOf(ds)
  {
    if ds != [] {
      SaveNewKeys(t, ds[..|ds| - 1]);
      KeysOfSnoc(ds);
    }
  }

  /** The count `_save_new_anomalies_only` returns is the number of rows it added. */
  lemma {:induction false} SaveNewCount(t: Table, ds: seq<Detection>)
    ensures |SaveNew(t, ds).rows| == |t.rows| + NewCount(t, ds)
  {
    if ds != [] {
      var init := ds[..|ds| - 1];
      SaveNewCount(t, init);
      UpsertKeepCount(SaveNew(t, init), ds[|ds| - 1]);
    }
  }

  /** One incremental insert keeps every status and id, touches no reviewed row and adds only pending rows. */
  lemma UpsertKeepPreserves(t: Table, d: Detection)
    ensures var r := UpsertKeep(t, d);
      && (forall k :: k in t.rows ==> k in r.rows && r.rows[k].status == t.rows[k].status && r.rows[k].id == t.rows[k].id)
      && (forall k :: k in t.rows && t.rows[k].status != Pending ==> r.rows[k] == t.rows[k])
      && (forall k :: k in r.rows && k !in t.rows ==> r.rows[k].status == Pending)
  {
  }

  /**
   * The incremental save never changes the status or id of an existing row,
   * leaves classified rows (validated, ignored, seasonal) untouched, and
   * gives every new row the pending status.
   */
  lemma {:induction false} SaveNewPreservesClassified(t: Table, ds: seq<Detection>)
    ensures var r := SaveNew(t, ds);
      && (forall k :: k in t.rows ==> k in r.rows && r.rows[k].status == t.rows[k].status && r.rows[k].id == t.rows[k].id)
      && (forall k :: k in t.rows && t.rows[k].status != Pending ==> r.rows[k] == t.rows[k])
      && (forall k :: k in r.rows && k !in t.rows ==> r.rows[k].status == Pending)
  {
    if ds != [] {
      SaveNewPreservesClassified(t, ds[..|ds| - 1]);
      UpsertKeepPreserves(SaveNew(t, ds[..|ds| - 1]), ds[|ds| - 1]);
    }
  }

  /**
   * After the incremental save, a key that was absent or pending holds the
   * values of its last detection and is pending.
   */
  lemma {:induction false} SaveNewLastWins(t: Table, ds: seq<Detection>)
    ensures var r := SaveNew(t, ds);
      forall i :: 0 <= i < |ds| && (forall j :: i < j < |ds| ==> KeyOf(ds[j]) != KeyOf(ds[i]))
                  && (KeyOf(ds[i]) !in t.rows || t.rows[KeyOf(ds[i])].status == Pending)
        ==> KeyOf(ds[i]) in r.rows && Carries(r.rows[KeyOf(ds[i])], ds[i]) && r.rows[KeyOf(ds[i])].status == Pending
  {
    if ds != [] {
      var init := ds[..|ds| - 1];
      var last := ds[|ds| - 1];
      var prev := SaveNew(t, init);
      var r := SaveNew(t, ds);
      assert r == UpsertKeep(prev, last);
      SaveNewLastWins(t, init);
      SaveNewPreservesClassified(t, init);
      forall i | 0 <= i < |ds| && (forall j :: i < j < |ds| ==> KeyOf(ds[j]) != KeyOf(ds[i]))
                 && (KeyOf(ds[i]) !in t.rows || t.rows[KeyOf(ds[i])].status == Pending)
        ensures KeyOf(ds[i]) in r.rows && Carries(r.rows[KeyOf(ds[i])], ds[i]) && r.rows[KeyOf(ds[i])].status == Pending
      {
        if i < |init| {
          assert ds[i] == init[i];
          assert KeyOf(last) != KeyOf(ds[i]);
          forall j | i < j < |init|
            ensures KeyOf(init[j]) != KeyOf(init[i])
          {
            assert init[j] == ds[j];
          }
          assert KeyOf(ds[i]) in prev.rows && Carries(prev.rows[KeyOf(ds[i])], ds[i]);
        } else {
          assert ds[i] == last;
          assert KeyOf(last) in prev.rows ==> prev.rows[KeyOf(last)].status == Pending;
        }
      }
    }
  }

  /** Running the incremental save twice on the same detections: the second run inserts nothing and changes no status. */
  lemma SaveNewSecondRun(t: Table, ds: seq<Detection>)
    ensures var r := SaveNew(t, ds);
      && NewCount(r, ds) == 0
      && SaveNew(r, ds).rows.Keys == r.rows.Keys
      && (forall k :: k in r.rows ==> SaveNew(r, ds).rows[k].status == r.rows[k].status)
  {
    var r := SaveNew(t, ds);
    SaveNewKeys(t, ds);
    SaveNewKeys(r, ds);
    SaveNewCount(r, ds);
    SaveNewPreservesClassified(r, ds);
  }

  // ---------------------------------------------------------------------
  // Status updates

  /** The table with the status of the row at `k` set to `s`. */
  function WithStatus(t: Table, k: Key, s: Status): (r: Table)
    requires k in t.rows
    ensures r.rows.Keys == t.rows.Keys && r.rows[k].status == s
    ensures forall j :: j in t.rows ==> r.rows[j].id == t.rows[j].id
    ensures forall j :: j in t.rows && j != k ==> r.rows[j] == t.rows[j]
  {
    t.(rows := t.rows[k := t.rows[k].(status := s)])
  }

  /** Changing a status keeps the id index consistent. */
  lemma WithStatusWellIndexed(t: Table, k: Key, s: Status)
    requires WellIndexed(t) && k in t.rows
    ensures WellIndexed(WithStatus(t, k, s))
  {
  }

  // ---------------------------------------------------------------------
  // Feedback table

  /** A row of `prediction_feedback`. */
  datatype Feedback = Feedback(predicted: real, actual: real, mape: real, anomalyId: Option<nat>, includedInTraining: bool)

  /** The feedback row written for a day: its error, the id of the same-key anomaly if any, and back in training. */
  function FeedbackRow(rows: map<Key, Anomaly>, product: int, o: Observation): Feedback {
    var k := Key(product, o.date);
    Feedback(o.predicted, o.actual, FeedbackMape(o.predicted, o.actual),
             if k in rows then Some(rows[k].id) else None, true)
  }

  /** `_save_prediction_feedback` as a value: INSERT OR REPLACE of every day, in order. */
  function SaveFeedback(fb: map<Key, Feedback>, rows: map<Key, Anomaly>, product: int, obs: seq<Observation>): map<Key, Feedback> {
    if obs == [] then fb
    else SaveFeedback(fb, rows, product, obs[..|obs| - 1])[Key(product, obs[|obs| - 1].date) := FeedbackRow(rows, product, obs[|obs| - 1])]
  }

  function ObservedKeys(product: int, obs: seq<Observation>): set<Key> {
    set i | 0 <= i < |obs| :: Key(product, obs[i].date)
  }

  lemma ObservedKeysSnoc(product: int, obs: seq<Observation>)
    requires obs != []
    ensures ObservedKeys(product, obs) == ObservedKeys(product, obs[..|obs| - 1]) + {Key(product, obs[|obs| - 1].date)}
  {
    var init := obs[..|obs| - 1];
    forall k | k in ObservedKeys(product, obs)
      ensures k in ObservedKeys(product, init) + {Key(product, obs[|obs| - 1].date)}
    {
      var i :| 0 <= i < |obs| && k == Key(product, obs[i].date);
      if i < |init| {
        assert obs[i] == init[i];
      }
    }
    forall k | k in ObservedKeys(product, init)
      ensures k in ObservedKeys(product, obs)
    {
      var i :| 0 <= i < |init| && k == Key(product, init[i].date);
      assert obs[i] == init[i];
    }
  }

  /**
   * After the feedback save every observed day has a row that is back in
   * training (an earlier exclusion is overwritten) and linked to the
   * same-key anomaly if there is one; rows of other days are unchanged.
   */
  lemma {:induction false} SaveFeedbackEffect(fb: map<Key, Feedback>, rows: map<Key, Anomaly>, product: int, obs: seq<Observation>)
    ensures var r := SaveFeedback(fb, rows, product, obs);
      && r.Keys == fb.Keys + ObservedKeys(product, obs)
      && (forall k :: k in fb && k !in ObservedKeys(product, obs) ==> r[k] == fb[k])
      && (forall k :: k in ObservedKeys(product, obs) ==>
            r[k].includedInTraining && r[k].anomalyId == (if k in rows then Some(rows[k].id) else None))
  {
    if obs != [] {
      SaveFeedbackEffect(fb, rows, product, obs[..|obs| - 1]);
      ObservedKeysSnoc(product, obs);
    }
  }

  /** A day's feedback row holds the values of the last observation of that day. */
  lemma {:induction false} SaveFeedbackLastWins(fb: map<Key, Feedback>, rows: map<Key, Anomaly>, product: int, obs: seq<Observation>)
    ensures forall i :: 0 <= i < |obs| && (forall j :: i < j < |obs| ==> obs[j].date != obs[i].date)
              ==> Key(product, obs[i].date) in SaveFeedback(fb, rows, product, obs)
                  && SaveFeedback(fb, rows, product, obs)[Key(product, obs[i].date)] == FeedbackRow(rows, product, obs[i])
  {
    if obs != [] {
      var init := obs[..|obs| - 1];
      var last := obs[|obs| - 1];
      var prev := SaveFeedback(fb, rows, product, init);
      var r := SaveFeedback(fb, rows, product, obs);
      assert r == prev[Key(product, last.date) := FeedbackRow(rows, product, last)];
      SaveFeedbackLastWins(fb, rows, product, init);
      forall i | 0 <= i < |obs| && (forall j :: i < j < |obs| ==> obs[j].date != obs[i].date)
        ensures Key(product, obs[i].date) in r && r[Key(product, obs[i].date)] == FeedbackRow(rows, product, obs[i])
      {
        if i < |init| {
          assert obs[i] == init[i];
          assert last.date != obs[i].date;
          forall j | i < j < |init|
            ensures init[j].date != init[i].date
          {
            assert init[j] == obs[j];
          }
          assert Key(product, obs[i].date) in prev && prev[Key(product, obs[i].date)] == FeedbackRow(rows, product, obs[i]);
        }
      }
    }
  }

  /** The cascade of ignoring anomaly `id`: its feedback rows leave training, every other row is kept. */
  function IgnoreCascade(fb: map<Key, Feedback>, id: nat): (r: map<Key, Feedback>)
    ensures r.Keys == fb.Keys
    ensures forall k :: k in r && r[k].anomalyId == Some(id) ==> !r[k].includedInTraining
    ensures forall k :: k in fb && fb[k].anomalyId != Some(id) ==> r[k] == fb[k]
    ensures forall k :: k in fb ==> r[k].(includedInTraining := fb[k].includedInTraining) == fb[k]
  {
    map k | k in fb :: if fb[k].anomalyId == Some(id) then fb[k].(includedInTraining := false) else fb[k]
  }

  // ---------------------------------------------------------------------
  // Clean MAPE

  predicate InPeriod(date: int, start: Option<int>, end: Option<int>) {
    (start.None? || start.value <= date) && (end.None? || date <= end.value)
  }

  /** Feedback days the clean MAPE averages: no same-key anomaly, or one not ignored, within the period. */
  function Counted(fb: map<Key, Feedback>, rows: map<Key, Anomaly>, start: Option<int>, end: Option<int>): set<Key> {
    set k | k in fb && (k !in rows || rows[k].status != Ignored) && InPeriod(k.date, start, end)
  }

  ghost function Pick(s: set<Key>): Key
    requires s != {}
  {
    var k :| k in s; k
  }

  /** The sum of the errors of the feedback rows in s. */
  ghost function MapeSum(fb: map<Key, Feedback>, s: set<Key>): real
    requires s <= fb.Keys
    decreases s
  {
    if s == {} then 0.0 else var k := Pick(s); fb[k].mape + MapeSum(fb, s - {k})
  }

  /** The sum does not depend on which key is taken out first. */
  lemma {:induction false} MapeSumRemove(fb: map<Key, Feedback>, s: set<Key>, k: Key)
    requires s <= fb.Keys && k in s
    ensures MapeSum(fb, s) == fb[k].mape + MapeSum(fb, s - {k})
    decreases |s|
  {
    var j := Pick(s);
    if j != k {
      MapeSumRemove(fb, s - {j}, k);
      MapeSumRemove(fb, s - {k}, j);
      assert s - {j} - {k} == s - {k} - {j};
    }
  }

  /** SQL's AVG over the counted rows, with an empty set (NULL) read as 0. */
  ghost function CleanAverage(fb: map<Key, Feedback>, rows: map<Key, Anomaly>, start: Option<int>, end: Option<int>): real {
    var s := Counted(fb, rows, start, end);
    if |s| == 0 then 0.0 else MapeSum(fb, s) / |s| as real
  }

  /** The number of counted rows whose anomaly is ignored, as the aggregate query computes it. */
  function IgnoredAmong(rows: map<Key, Anomaly>, s: set<Key>): nat {
    |set k | k in s && k in rows && rows[k].status == Ignored|
  }

  /** The aggregate's ignored count is taken over rows that already exclude ignored anomalies, so it is always 0. */
  lemma AnomaliesExcludedIsZero(fb: map<Key, Feedback>, rows: map<Key, Anomaly>, start: Option<int>, end: Option<int>)
    ensures IgnoredAmong(rows, Counted(fb, rows, start, end)) == 0
  {
    var s := Counted(fb, rows, start, end);
    assert (set k | k in s && k in rows && rows[k].status == Ignored) == {};
  }

  /**
   * Ignoring an anomaly takes its day out of the clean MAPE, taking an ignored
   * one to another status puts its day back, and switching between other
   * statuses leaves the set alone.
   */
  lemma StatusChangeOnCounted(fb: map<Key, Feedback>, rows: map<Key, Anomaly>, k: Key, s: Status,
                              start: Option<int>, end: Option<int>)
    requires k in rows
    ensures s == Ignored ==> Counted(fb, rows[k := rows[k].(status := s)], start, end) == Counted(fb, rows, start, end) - {k}
    ensures s != Ignored && rows[k].status != Ignored ==>
      Counted(fb, rows[k := rows[k].(status := s)], start, end) == Counted(fb, rows, start, end)
    ensures rows[k].status == Ignored && s != Ignored ==>
      Counted(fb, rows[k := rows[k].(status := s)], start, end)
        == Counted(fb, rows, start, end) + (if k in fb && InPeriod(k.date, start, end) then {k} else {})
  {
    var rows2 := rows[k := rows[k].(status := s)];
    if s == Ignored {
      assert forall j :: j in Counted(fb, rows2, start, end) <==> j in Counted(fb, rows, start, end) - {k};
    } else if rows[k].status != Ignored {
      assert forall j :: j in Counted(fb, rows2, start, end) <==> j in Counted(fb, rows, start, end);
    } else {
      assert forall j :: j in Counted(fb, rows2, start, end) <==>
        j in Counted(fb, rows, start, end) + (if k in fb && InPeriod(k.date, start, end) then {k} else {});
    }
  }

  /** What `calculate_clean_mape` returns. */
  datatype MapeReport = MapeReport(cleanMape: real, predictionsUsed: int, anomaliesExcluded: nat,
                                   improvement: real, improvementPercent: real)

  /**
   * The report for an average, a row count, an ignored count and the
   * reference MAPE: the average to two decimals; the improvement over the
   * reference only once a reference is set; its percentage only for a
   * non-zero reference.
   */
  function ReportOf(average: real, count: nat, ignored: nat, reference: Option<real>): (r: MapeReport)
    ensures r.predictionsUsed == count - ignored && r.anomaliesExcluded == ignored
    ensures Abs(r.cleanMape - average) <= 0.005
    ensures reference.None? ==> r.improvement == 0.0 && r.improvementPercent == 0.0
    ensures reference.Some? ==> Abs(r.improvement - (reference.value - average)) <= 0.005
    ensures reference == Some(0.0) ==> r.improvementPercent == 0.0
  {
    var improvement := if reference.Some? then reference.value - average else 0.0;
    assert RoundTo(0.0, 100) == 0.0 by {
      assert Round(0.0) == 0;
    }
    MapeReport(RoundTo(average, 100), count - ignored, ignored, RoundTo(improvement, 100),
               if reference.Some? && reference.value != 0.0 then RoundTo(Div(improvement, reference.value) * 100.0, 10) else 0.0)
  }

  // ---------------------------------------------------------------------
  // Pending anomalies

  /** A row of `get_pending_anomalies` (the query does not select the product id). */
  datatype PendingRow = PendingRow(id: nat, date: int, productName: string, predicted: real,
                                   actual: real, deviationPercent: real, kind: Kind, severity: Severity)

  function RowOf(k: Key, a: Anomaly, name: string): PendingRow {
    PendingRow(a.id, k.date, name, a.predicted, a.actual, a.deviationPercent, a.kind, a.severity)
  }

  /** The pending anomalies among `keys` whose product is known (the join with products), as result rows. */
  function PendingAmong(rows: map<Key, Anomaly>, names: map<int, string>, keys: set<Key>): set<PendingRow> {
    set k | k in keys && k in rows && rows[k].status == Pending && k.product in names :: RowOf(k, rows[k], names[k.product])
  }

  /** Adding one key to the scanned keys adds its row when it is pending and its product is known. */
  lemma PendingAmongAdd(rows: map<Key, Anomaly>, names: map<int, string>, keys: set<Key>, k: Key)
    requires k in rows
    ensures PendingAmong(rows, names, keys + {k}) ==
      PendingAmong(rows, names, keys) + (if rows[k].status == Pending && k.product in names then {RowOf(k, rows[k], names[k.product])} else {})
  {
  }

  /** Rows of distinct keys are distinct, since their ids are. */
  lemma PendingRowFresh(t: Table, names: map<int, string>, keys: set<Key>, k: Key, name: string)
    requires WellIndexed(t) && k in t.rows && k !in keys
    ensures RowOf(k, t.rows[k], name) !in PendingAmong(t.rows, names, keys)
  {
    forall j | j in keys && j in t.rows && t.rows[j].status == Pending && j.product in names
      ensures RowOf(j, t.rows[j], names[j.product]) != RowOf(k, t.rows[k], name)
    {
      assert t.index[t.rows[j].id] == j && t.index[t.rows[k].id] == k;
    }
  }

  predicate SortedDesc(s: seq<PendingRow>) {
    forall i, j :: 0 <= i < j < |s| ==> s[j].deviationPercent <= s[i].deviationPercent
  }

  predicate Distinct(s: seq<PendingRow>) {
    forall i, j :: 0 <= i < j < |s| ==> s[i] != s[j]
  }

  /** Inserting a row into a sequence sorted by decreasing deviation, after the rows with a larger or equal one. */
  function InsertDesc(s: seq<PendingRow>, x: PendingRow): (r: seq<PendingRow>)
    ensures |r| == |s| + 1
  {
    if s == [] || s[0].deviationPercent < x.deviationPercent then [x] + s
    else [s[0]] + InsertDesc(s[1..], x)
  }

  /** Insertion adds exactly the new row. */
  lemma {:induction false} InsertDescAdds(s: seq<PendingRow>, x: PendingRow)
    ensures multiset(InsertDesc(s, x)) == multiset(s) + multiset{x}
  {
    if s != [] && x.deviationPercent <= s[0].deviationPercent {
      InsertDescAdds(s[1..], x);
      assert s == [s[0]] + s[1..];
    }
  }

  /** Inserting a row no larger than a bound into rows no larger than it keeps every row within the bound. */
  lemma {:induction false} InsertDescBounded(s: seq<PendingRow>, x: PendingRow, bound: real)
    requires forall i :: 0 <= i < |s| ==> s[i].deviationPercent <= bound
    requires x.deviationPercent <= bound
    ensures forall i :: 0 <= i < |InsertDesc(s, x)| ==> InsertDesc(s, x)[i].deviationPercent <= bound
  {
    if s != [] && x.deviationPercent <= s[0].deviationPercent {
      InsertDescBounded(s[1..], x, bound);
    }
  }

  /** Insertion keeps a sequence sorted by decreasing deviation. */
  lemma {:induction false} InsertDescSorted(s: seq<PendingRow>, x: PendingRow)
    requires SortedDesc(s)
    ensures SortedDesc(InsertDesc(s, x))
  {
    if s != [] && x.deviationPercent <= s[0].deviationPercent {
      var rest := InsertDesc(s[1..], x);
      InsertDescSorted(s[1..], x);
      InsertDescBounded(s[1..], x, s[0].deviationPercent);
      var r := [s[0]] + rest;
      forall i, j | 0 <= i < j < |r|
        ensures r[j].deviationPercent <= r[i].deviationPercent
      {
        assert r[j] == rest[j - 1];
        if i > 0 {
          assert r[i] == rest[i - 1];
        }
      }
    }
  }

  /**
   * Adding the row of one more pending key to the rows collected so far
   * keeps them sorted and distinct, and they are then the pending rows of
   * the keys seen including that one.
   */
  lemma CollectPendingStep(t: Table, names: map<int, string>, done: set<Key>, k: Key, all: seq<PendingRow>)
    requires WellIndexed(t) && k in t.rows && k !in done
    requires t.rows[k].status == Pending && k.product in names
    requires SortedDesc(all) && Distinct(all)
    requires forall x :: x in all <==> x in PendingAmong(t.rows, names, done)
    ensures var next := InsertDesc(all, RowOf(k, t.rows[k], names[k.product]));
      && SortedDesc(next) && Distinct(next)
      && (forall x :: x in next <==> x in PendingAmong(t.rows, names, done + {k}))
  {
    var row := RowOf(k, t.rows[k], names[k.product]);
    PendingAmongAdd(t.rows, names, done, k);
    PendingRowFresh(t, names, done, k, names[k.product]);
    InsertDescSorted(all, row);
    InsertDescDistinct(all, row);
    InsertDescAdds(all, row);
    var next := InsertDesc(all, row);
    assert forall x :: x in next <==> x in multiset(next);
  }

  /** Inserting a row that is not there yet keeps the rows distinct. */
  lemma {:induction false} InsertDescDistinct(s: seq<PendingRow>, x: PendingRow)
    requires Distinct(s) && x !in s
    ensures Distinct(InsertDesc(s, x))
  {
    var r := InsertDesc(s, x);
    if s == [] || s[0].deviationPercent < x.deviationPercent {
      forall i, j | 0 <= i < j < |r|
        ensures r[i] != r[j]
      {
        assert r[j] == s[j - 1];
        if i > 0 {
          assert r[i] == s[i - 1];
        }
      }
    } else {
      var rest := InsertDesc(s[1..], x);
      assert x !in s[1..];
      InsertDescDistinct(s[1..], x);
      InsertDescAdds(s[1..], x);
      forall i | 0 <= i < |rest|
        ensures rest[i] != s[0]
      {
        assert rest[i] in multiset(rest);
        if rest[i] != x {
          assert rest[i] in s[1..];
          var j :| 0 <= j < |s[1..]| && s[1..][j] == rest[i];
          assert s[j + 1] == rest[i];
        }
      }
      forall i, j | 0 <= i < j < |r|
        ensures r[i] != r[j]
      {
        assert r[j] == rest[j - 1];
        if i > 0 {
          assert r[i] == rest[i - 1];
        }
      }
    }
  }
}
