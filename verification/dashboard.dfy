/** The dashboard of `app/states/dashboard_state.py`: for the parcels a user may see,
    the status of each sensor from its latest reading (gray without readings, green
    inside its band, red outside), an alert raised for a violation unless one of the
    same sensor and type is still open, the "last update" buckets, the count of open
    alerts and of red sensors, and acknowledging an alert. */
module Dashboard {
  import opened Wrappers
  import opened Text
  import opened Records

  /** The colour of a sensor's status. */
  datatype Color = Gray | Green | Red

  /** How long ago the latest reading was taken. */
  datatype Ago = Never | JustNow | MinutesAgo(minutes: nat) | HoursAgo(hours: nat)

  /** One entry of `sensor_statuses`; `value` is `None` where the source shows "--". */
  datatype SensorStatus = SensorStatus(
    id: int, code: string, kind: string, value: Option<real>, unit: string,
    color: Color, lastUpdate: Ago, parcelId: int)

  /** The parts of a `Parcel` row and a `ParcelTechnician` row the dashboard reads. */
  datatype ParcelRow = ParcelRow(id: int, ownerId: int)
  datatype Assignment = Assignment(parcelId: int, userId: int)

  // ---------------------------------------------------------------------------------
  // Last-update buckets.

  /** The bucket of a reading taken `seconds` ago (whole seconds). */
  function LastUpdate(seconds: int): (a: Ago)
    ensures a == JustNow <==> seconds < 60
    ensures a.MinutesAgo? <==> 60 <= seconds < 3600
    ensures a.HoursAgo? <==> 3600 <= seconds
    ensures a.MinutesAgo? ==> 1 <= a.minutes <= 59 && a.minutes * 60 <= seconds < (a.minutes + 1) * 60
    ensures a.HoursAgo? ==> 1 <= a.hours && a.hours * 3600 <= seconds < (a.hours + 1) * 3600
  {
    if seconds < 60 then JustNow
    else if seconds < 3600 then MinutesAgo(seconds / 60)
    else HoursAgo(seconds / 3600)
  }

  /** The text shown for a bucket. */
  function AgoText(a: Ago): (s: string)
    ensures a.Never? ==> s == "Nunca"
    ensures a.JustNow? ==> s == "Justo ahora"
    ensures a.MinutesAgo? ==> s == NatToString(a.minutes) + "m atrás"
    ensures a.HoursAgo? ==> s == NatToString(a.hours) + "h atrás"
  {
    match a
    case Never => "Nunca"
    case JustNow => "Justo ahora"
    case MinutesAgo(n) => NatToString(n) + "m atrás"
    case HoursAgo(n) => NatToString(n) + "h atrás"
  }

  /** Distinct buckets are shown as distinct texts; in particular the number shown is
      the number of minutes or hours. */
  lemma AgoTextInjective(a: Ago, b: Ago)
    requires AgoText(a) == AgoText(b)
    ensures a == b
  {
    var s := AgoText(a);
    if a.MinutesAgo? || a.HoursAgo? {
      var n := if a.MinutesAgo? then a.minutes else a.hours;
      assert IsDigit(s[0]);
      assert !b.Never? && !b.JustNow? by {
        assert !IsDigit("Nunca"[0]) && !IsDigit("Justo ahora"[0]);
      }
      var m := if b.MinutesAgo? then b.minutes else b.hours;
      var k := |NatToString(n)|;
      assert s[k] == (if a.MinutesAgo? then 'm' else 'h');
      assert !IsDigit(s[k]);
      var k2 := |NatToString(m)|;
      assert s[k2] == (if b.MinutesAgo? then 'm' else 'h');
      DigitRunLength(s, NatToString(n), NatToString(m));
      assert NatToString(n) == NatToString(m);
      assert n == m by {
        assert DigitsValue(NatToString(n)) == n && DigitsValue(NatToString(m)) == m;
      }
    } else {
      assert !IsDigit(s[0]);
    }
  }

  /** Two digit strings that both start `s` and are each followed by a non-digit are
      the same string. */
  lemma DigitRunLength(s: string, p: string, q: string)
    requires AllDigits(p) && AllDigits(q)
    requires |p| < |s| && |q| < |s| && s[..|p|] == p && s[..|q|] == q
    requires !IsDigit(s[|p|]) && !IsDigit(s[|q|])
    ensures p == q
  {
  }

  // ---------------------------------------------------------------------------------
  // Status of one sensor.

  /** `_get_latest_reading`: the sensor's reading with the greatest timestamp (among
      equal timestamps, the one stored last). */
  function LatestReading(readings: seq<SensorData>, sensorId: int): (r: Option<SensorData>)
    ensures r.Some? <==> exists i :: 0 <= i < |readings| && readings[i].sensorId == sensorId
    ensures r.Some? ==> r.value in readings && r.value.sensorId == sensorId
    ensures r.Some? ==> forall i :: 0 <= i < |readings| && readings[i].sensorId == sensorId ==>
                          readings[i].timestamp <= r.value.timestamp
  {
    if readings == [] then None
    else
      var init := readings[..|readings| - 1];
      var last := readings[|readings| - 1];
      var prev := LatestReading(init, sensorId);
      assert forall i :: 0 <= i < |init| ==> readings[i] == init[i];
      if last.sensorId != sensorId then prev
      else if prev.None? || prev.value.timestamp <= last.timestamp then Some(last)
      else prev
  }

  /** The alert type the dashboard writes: upper case, unlike the reading pipeline. */
  function DashboardKind(v: Violation): (r: string)
    ensures r == "LOW" <==> v == Low
    ensures r == "HIGH" <==> v == High
  {
    match v
    case Low => "LOW"
    case High => "HIGH"
  }

  /** The status row of a sensor, from its latest reading and the clock. */
  function StatusOf(s: SensorRow, readings: seq<SensorData>, now: int): (st: SensorStatus)
    ensures st.id == s.id && st.code == s.idCode && st.kind == s.kind && st.unit == s.unit && st.parcelId == s.parcelId
    ensures st.color == Gray <==> LatestReading(readings, s.id).None?
    ensures LatestReading(readings, s.id).None? ==> st.value == None && st.lastUpdate == Never
    ensures LatestReading(readings, s.id).Some? ==>
      var latest := LatestReading(readings, s.id).value;
      st.value == Some(latest.value) && st.lastUpdate == LastUpdate(now - latest.timestamp) &&
      (st.color == Red <==> (latest.value < s.thresholdLow || s.thresholdHigh < latest.value))
  {
    match LatestReading(readings, s.id)
    case None => SensorStatus(s.id, s.idCode, s.kind, None, s.unit, Gray, Never, s.parcelId)
    case Some(latest) =>
      var color := if Classify(latest.value, s.thresholdLow, s.thresholdHigh).Some? then Red else Green;
      SensorStatus(s.id, s.idCode, s.kind, Some(latest.value), s.unit, color,
                   LastUpdate(now - latest.timestamp), s.parcelId)
  }

  /** The status rows of the sensors, in order. */
  function Statuses(sensors: seq<SensorRow>, readings: seq<SensorData>, now: int): (r: seq<SensorStatus>)
    ensures |r| == |sensors|
    ensures forall i :: 0 <= i < |r| ==> r[i] == StatusOf(sensors[i], readings, now)
  {
    if sensors == [] then []
    else Statuses(sensors[..|sensors| - 1], readings, now) + [StatusOf(sensors[|sensors| - 1], readings, now)]
  }

  // ---------------------------------------------------------------------------------
  // Alert de-duplication.

  /** An unacknowledged alert of this sensor and type exists (the `existing` query). */
  predicate HasOpen(alerts: seq<Alert>, sensorId: int, kind: string) {
    exists i :: 0 <= i < |alerts| && alerts[i].sensorId == sensorId && alerts[i].kind == kind && !alerts[i].acknowledged
  }

  /** Insert the alert only if no open alert of the same sensor and type exists. */
  function RaiseOnce(alerts: seq<Alert>, a: Alert): (r: seq<Alert>)
    ensures HasOpen(alerts, a.sensorId, a.kind) ==> r == alerts
    ensures !HasOpen(alerts, a.sensorId, a.kind) ==> r == alerts + [a]
  {
    if HasOpen(alerts, a.sensorId, a.kind) then alerts else alerts + [a]
  }

  /** An open alert is counted exactly when one exists. */
  lemma {:induction false} OpenCountPositive(alerts: seq<Alert>, sensorId: int, kind: string)
    ensures OpenCount(alerts, sensorId, kind) > 0 <==> HasOpen(alerts, sensorId, kind)
  {
    if alerts != [] {
      var init := alerts[..|alerts| - 1];
      OpenCountPositive(init, sensorId, kind);
      if HasOpen(init, sensorId, kind) {
        var i :| 0 <= i < |init| && init[i].sensorId == sensorId && init[i].kind == kind && !init[i].acknowledged;
        assert alerts[i] == init[i];
      }
      if HasOpen(alerts, sensorId, kind) {
        var i :| 0 <= i < |alerts| && alerts[i].sensorId == sensorId && alerts[i].kind == kind && !alerts[i].acknowledged;
        if i < |init| {
          assert init[i] == alerts[i];
        }
      }
    }
  }

  /** De-duplication keeps at most one open alert per sensor and type: starting from at
      most one, there is exactly one after an open alert is raised. */
  lemma RaiseOnceKeepsOne(alerts: seq<Alert>, a: Alert)
    requires !a.acknowledged
    requires OpenCount(alerts, a.sensorId, a.kind) <= 1
    ensures OpenCount(RaiseOnce(alerts, a), a.sensorId, a.kind) == 1
  {
    OpenCountPositive(alerts, a.sensorId, a.kind);
    if !HasOpen(alerts, a.sensorId, a.kind) {
      OpenCountAppend(alerts, a, a.sensorId, a.kind);
    }
  }

  /** Appending alerts keeps an open alert open. */
  lemma OpenStaysOpen(alerts: seq<Alert>, more: seq<Alert>, sensorId: int, kind: string)
    requires HasOpen(alerts, sensorId, kind)
    ensures HasOpen(alerts + more, sensorId, kind)
  {
    var i :| 0 <= i < |alerts| && alerts[i].sensorId == sensorId && alerts[i].kind == kind && !alerts[i].acknowledged;
    assert (alerts + more)[i] == alerts[i];
  }

  /** The alert the dashboard raises for a sensor whose latest reading is out of band. */
  function ViolationAlert(s: SensorRow, latest: SensorData, v: Violation): (a: Alert)
    ensures a.sensorId == s.id && a.timestamp == latest.timestamp
    ensures a.kind == DashboardKind(v) && !a.acknowledged
  {
    var limit := if v == Low then s.thresholdLow else s.thresholdHigh;
    Alert(s.id, latest.timestamp, DashboardKind(v), StatusMessage(latest.value, s.unit, v == Low, limit), false)
  }

  /** The violation of a sensor's latest reading, if any. */
  function LatestViolation(s: SensorRow, readings: seq<SensorData>): (v: Option<Violation>)
    ensures v.Some? ==> LatestReading(readings, s.id).Some?
    ensures v.Some? <==> StatusOf(s, readings, 0).color == Red
  {
    match LatestReading(readings, s.id)
    case None => None
    case Some(latest) => Classify(latest.value, s.thresholdLow, s.thresholdHigh)
  }

  /** The alert step of one sensor in `load_dashboard_stats`. */
  function CheckSensor(db: Db, s: SensorRow): (r: Db)
    ensures r.sensors == db.sensors && r.readings == db.readings
    ensures |db.alerts| <= |r.alerts| <= |db.alerts| + 1 && r.alerts[..|db.alerts|] == db.alerts
    ensures LatestViolation(s, db.readings).None? ==> r == db
    ensures LatestViolation(s, db.readings).Some? ==>
      HasOpen(r.alerts, s.id, DashboardKind(LatestViolation(s, db.readings).value))
    ensures LatestViolation(s, db.readings).Some? ==>
      (|r.alerts| == |db.alerts| + 1 <==> !HasOpen(db.alerts, s.id, DashboardKind(LatestViolation(s, db.readings).value)))
    ensures |r.alerts| == |db.alerts| + 1 ==>
      LatestViolation(s, db.readings).Some? &&
      r.alerts[|db.alerts|] == ViolationAlert(s, LatestReading(db.readings, s.id).value, LatestViolation(s, db.readings).value)
  {
    match LatestViolation(s, db.readings)
    case None => db
    case Some(v) =>
      var a := ViolationAlert(s, LatestReading(db.readings, s.id).value, v);
      var r := db.(alerts := RaiseOnce(db.alerts, a));
      assert r.alerts[..|db.alerts|] == db.alerts;
      assert !HasOpen(db.alerts, s.id, a.kind) ==> r.alerts[|db.alerts|] == a;
      r
  }

  /** The alert steps of all sensors, in order. */
  function CheckAll(db: Db, sensors: seq<SensorRow>): (r: Db)
    ensures r.sensors == db.sensors && r.readings == db.readings
    ensures |db.alerts| <= |r.alerts| && r.alerts[..|db.alerts|] == db.alerts
  {
    if sensors == [] then db
    else
      var prev := CheckAll(db, sensors[..|sensors| - 1]);
      var r := CheckSensor(prev, sensors[|sensors| - 1]);
      assert r.alerts[..|db.alerts|] == prev.alerts[..|db.alerts|];
      r
  }

  /** After the alert steps, every listed sensor in violation has an open alert of its
      type. */
  lemma {:induction false} CheckAllOpens(db: Db, sensors: seq<SensorRow>, j: nat)
    requires j < |sensors| && LatestViolation(sensors[j], db.readings).Some?
    ensures HasOpen(CheckAll(db, sensors).alerts, sensors[j].id, DashboardKind(LatestViolation(sensors[j], db.readings).value))
  {
    var init := sensors[..|sensors| - 1];
    var prev := CheckAll(db, init);
    var r := CheckAll(db, sensors);
    var kind := DashboardKind(LatestViolation(sensors[j], db.readings).value);
    if j < |init| {
      CheckAllOpens(db, init, j);
      assert r.alerts == prev.alerts + r.alerts[|prev.alerts|..];
      OpenStaysOpen(prev.alerts, r.alerts[|prev.alerts|..], sensors[j].id, kind);
    }
  }

  /** Once every sensor in violation has an open alert, the alert steps change nothing. */
  lemma {:induction false} CheckAllStable(db: Db, sensors: seq<SensorRow>)
    requires forall j :: 0 <= j < |sensors| && LatestViolation(sensors[j], db.readings).Some? ==>
      HasOpen(db.alerts, sensors[j].id, DashboardKind(LatestViolation(sensors[j], db.readings).value))
    ensures CheckAll(db, sensors) == db
  {
    if sensors != [] {
      CheckAllStable(db, sensors[..|sensors| - 1]);
    }
  }

  /** Repeating the dashboard's check adds no alert: the second pass finds every
      violation already open. */
  lemma CheckAllIdempotent(db: Db, sensors: seq<SensorRow>)
    ensures CheckAll(CheckAll(db, sensors), sensors) == CheckAll(db, sensors)
  {
    var once := CheckAll(db, sensors);
    forall j | 0 <= j < |sensors| && LatestViolation(sensors[j], once.readings).Some?
      ensures HasOpen(once.alerts, sensors[j].id, DashboardKind(LatestViolation(sensors[j], once.readings).value))
    {
      CheckAllOpens(db, sensors, j);
    }
    CheckAllStable(once, sensors);
  }

  /** The types differ in case, so an open alert written by the reading pipeline does
      not stop the dashboard from raising its own alert for the same violation. */
  lemma PipelineAlertDoesNotDeduplicate(alerts: seq<Alert>, a: Alert, v: Violation)
    requires a.kind == PipelineKind(v)
    ensures HasOpen(alerts + [a], a.sensorId, DashboardKind(v)) <==> HasOpen(alerts, a.sensorId, DashboardKind(v))
  {
    assert PipelineKind(v) != DashboardKind(v) by {
      assert PipelineKind(v)[0] != DashboardKind(v)[0];
    }
    if HasOpen(alerts + [a], a.sensorId, DashboardKind(v)) {
      var i :| 0 <= i < |alerts + [a]| && (alerts + [a])[i].sensorId == a.sensorId &&
               (alerts + [a])[i].kind == DashboardKind(v) && !(alerts + [a])[i].acknowledged;
      assert i < |alerts| && alerts[i] == (alerts + [a])[i];
    }
    if HasOpen(alerts, a.sensorId, DashboardKind(v)) {
      OpenStaysOpen(alerts, [a], a.sensorId, DashboardKind(v));
    }
  }

  // ---------------------------------------------------------------------------------
  // Access, counters and acknowledging.

  /** `assigned_parcel_ids`: the parcels a user is assigned to. */
  function AssignedTo(assignments: seq<Assignment>, userId: int): (r: seq<int>)
    ensures forall p :: p in r <==> exists i :: 0 <= i < |assignments| && assignments[i].userId == userId && assignments[i].parcelId == p
  {
    if assignments == [] then []
    else
      var init := assignments[..|assignments| - 1];
      var last := assignments[|assignments| - 1];
      var prev := AssignedTo(init, userId);
      assert forall i :: 0 <= i < |init| ==> assignments[i] == init[i];
      prev + (if last.userId == userId then [last.parcelId] else [])
  }

  /** The parcels that pass the filter, in query order. */
  function ParcelsWhere(parcels: seq<ParcelRow>, userId: int, assignedIds: seq<int>): (r: seq<ParcelRow>)
    ensures forall p :: p in r <==> p in parcels && (p.ownerId == userId || p.id in assignedIds)
  {
    if parcels == [] then []
    else
      var p := parcels[|parcels| - 1];
      assert forall q :: q in parcels <==> q in parcels[..|parcels| - 1] || q == p;
      ParcelsWhere(parcels[..|parcels| - 1], userId, assignedIds) + (if p.ownerId == userId || p.id in assignedIds then [p] else [])
  }

  /** `accessible_parcels`: every parcel for a farmer; otherwise the user's own parcels
      and, when there are any, the ones assigned to them. */
  function Accessible(role: Option<string>, userId: int, parcels: seq<ParcelRow>, assignments: seq<Assignment>): (r: seq<ParcelRow>)
    ensures role == Some("farmer") ==> r == parcels
    ensures role != Some("farmer") ==> forall p :: p in r <==>
      p in parcels && (p.ownerId == userId ||
                       exists i :: 0 <= i < |assignments| && assignments[i].userId == userId && assignments[i].parcelId == p.id)
  {
    if role == Some("farmer") then parcels
    else
      var assignedIds := AssignedTo(assignments, userId);
      if assignedIds != [] then ParcelsWhere(parcels, userId, assignedIds)
      else ParcelsWhere(parcels, userId, [])
  }

  /** One column of some rows, in order: `[p.id for p in parcels]` and
      `[s.id for s in sensors]`. */
  function Ids<T>(rows: seq<T>, id: T -> int): (r: seq<int>)
    ensures |r| == |rows|
    ensures forall i :: 0 <= i < |r| ==> r[i] == id(rows[i])
  {
    if rows == [] then [] else Ids(rows[..|rows| - 1], id) + [id(rows[|rows| - 1])]
  }

  function ParcelKey(p: ParcelRow): int { p.id }
  function SensorKey(s: SensorRow): int { s.id }

  /** The sensors of the given parcels, in table order. */
  function SensorsIn(sensors: seq<SensorRow>, parcelIds: seq<int>): (r: seq<SensorRow>)
    ensures forall s :: s in r <==> s in sensors && s.parcelId in parcelIds
  {
    if sensors == [] then []
    else
      var s := sensors[|sensors| - 1];
      assert forall q :: q in sensors <==> q in sensors[..|sensors| - 1] || q == s;
      SensorsIn(sensors[..|sensors| - 1], parcelIds) + (if s.parcelId in parcelIds then [s] else [])
  }


  /** `active_alerts`: the unacknowledged alerts of the given sensors. */
  function OpenAlertCount(alerts: seq<Alert>, sensorIds: seq<int>): (n: nat)
    ensures n <= |alerts|
    ensures sensorIds == [] ==> n == 0
  {
    if alerts == [] then 0
    else
      var a := alerts[|alerts| - 1];
      OpenAlertCount(alerts[..|alerts| - 1], sensorIds) + (if a.sensorId in sensorIds && !a.acknowledged then 1 else 0)
  }

  /** The positions of the unacknowledged alerts of the given sensors: the rows the
      `count` query matches. */
  function OpenPositions(alerts: seq<Alert>, sensorIds: seq<int>): (r: set<nat>)
    ensures forall i: nat :: i in r <==> i < |alerts| && alerts[i].sensorId in sensorIds && !alerts[i].acknowledged
  {
    set i: nat | i < |alerts| && alerts[i].sensorId in sensorIds && !alerts[i].acknowledged
  }

  /** `OpenAlertCount` counts exactly the rows the query matches. */
  lemma {:induction false} OpenAlertCountIsCount(alerts: seq<Alert>, sensorIds: seq<int>)
    ensures OpenAlertCount(alerts, sensorIds) == |OpenPositions(alerts, sensorIds)|
  {
    if alerts != [] {
      var init := alerts[..|alerts| - 1];
      var last := |alerts| - 1;
      OpenAlertCountIsCount(init, sensorIds);
      var hit := alerts[last].sensorId in sensorIds && !alerts[last].acknowledged;
      assert OpenPositions(alerts, sensorIds) ==
        OpenPositions(init, sensorIds) + (if hit then {last} else {});
      assert last !in OpenPositions(init, sensorIds);
    }
  }

  /** The count over two runs of alerts is the sum of their counts. */
  lemma {:induction false} OpenAlertCountAppend(a: seq<Alert>, b: seq<Alert>, sensorIds: seq<int>)
    ensures OpenAlertCount(a + b, sensorIds) == OpenAlertCount(a, sensorIds) + OpenAlertCount(b, sensorIds)
  {
    if b == [] {
      assert a + b == a;
    } else {
      OpenAlertCountAppend(a, b[..|b| - 1], sensorIds);
      assert (a + b)[..|a + b| - 1] == a + b[..|b| - 1];
    }
  }

  /** Alerts that are all open and all of listed sensors are all counted. */
  lemma {:induction false} AllCounted(b: seq<Alert>, sensorIds: seq<int>)
    requires forall i :: 0 <= i < |b| ==> b[i].sensorId in sensorIds && !b[i].acknowledged
    ensures OpenAlertCount(b, sensorIds) == |b|
  {
    if b != [] {
      AllCounted(b[..|b| - 1], sensorIds);
    }
  }

  /** Acknowledging an open alert of a listed sensor lowers the count by exactly one;
      acknowledging any other id leaves it as it was. */
  lemma AcknowledgeCount(db: Db, alertId: int, sensorIds: seq<int>)
    ensures OpenAlertCount(Acknowledge(db, alertId).alerts, sensorIds) ==
      OpenAlertCount(db.alerts, sensorIds) -
      (if 1 <= alertId <= |db.alerts| && db.alerts[alertId - 1].sensorId in sensorIds &&
          !db.alerts[alertId - 1].acknowledged then 1 else 0)
  {
    if 1 <= alertId <= |db.alerts| {
      var k := alertId - 1;
      var before, after := db.alerts[..k], db.alerts[k + 1..];
      var acked := Acknowledge(db, alertId).alerts;
      assert db.alerts == before + [db.alerts[k]] + after;
      assert acked == before + [acked[k]] + after;
      OpenAlertCountAppend(before + [db.alerts[k]], after, sensorIds);
      OpenAlertCountAppend(before, [db.alerts[k]], sensorIds);
      OpenAlertCountAppend(before + [acked[k]], after, sensorIds);
      OpenAlertCountAppend(before, [acked[k]], sensorIds);
      assert [db.alerts[k]][..0] == [] && [acked[k]][..0] == [];
    }
  }

  /** Every alert the pass appends is open and belongs to one of the checked sensors. */
  lemma {:induction false} CheckAllAppendsOpen(db: Db, sensors: seq<SensorRow>, sensorIds: seq<int>)
    requires forall j :: 0 <= j < |sensors| ==> sensors[j].id in sensorIds
    ensures forall i :: |db.alerts| <= i < |CheckAll(db, sensors).alerts| ==>
      CheckAll(db, sensors).alerts[i].sensorId in sensorIds && !CheckAll(db, sensors).alerts[i].acknowledged
  {
    if sensors != [] {
      var init := sensors[..|sensors| - 1];
      CheckAllAppendsOpen(db, init, sensorIds);
      var prev := CheckAll(db, init);
      var r := CheckAll(db, sensors);
      assert r == CheckSensor(prev, sensors[|sensors| - 1]);
      forall i | |db.alerts| <= i < |r.alerts|
        ensures r.alerts[i].sensorId in sensorIds && !r.alerts[i].acknowledged
      {
        if i < |prev.alerts| {
          assert r.alerts[..|prev.alerts|] == prev.alerts;
          assert r.alerts[i] == prev.alerts[i];
        }
      }
    }
  }

  /** The pass raises the open count of the checked sensors by exactly the number of
      alerts it appends. */
  lemma CheckAllCount(db: Db, sensors: seq<SensorRow>)
    ensures OpenAlertCount(CheckAll(db, sensors).alerts, Ids(sensors, SensorKey)) ==
      OpenAlertCount(db.alerts, Ids(sensors, SensorKey)) + (|CheckAll(db, sensors).alerts| - |db.alerts|)
  {
    var ids := Ids(sensors, SensorKey);
    var r := CheckAll(db, sensors);
    var added := r.alerts[|db.alerts|..];
    CheckAllAppendsOpen(db, sensors, ids);
    assert r.alerts == db.alerts + added;
    OpenAlertCountAppend(db.alerts, added, ids);
    AllCounted(added, ids);
  }

  /** Red statuses in a list. */
  function CountRed(statuses: seq<SensorStatus>): (n: nat)
    ensures n <= |statuses|
  {
    if statuses == [] then 0
    else CountRed(statuses[..|statuses| - 1]) + (if statuses[|statuses| - 1].color == Red then 1 else 0)
  }

  /** Sensors whose latest reading is out of band. */
  function CountViolating(sensors: seq<SensorRow>, readings: seq<SensorData>): nat {
    if sensors == [] then 0
    else CountViolating(sensors[..|sensors| - 1], readings)
         + (if LatestViolation(sensors[|sensors| - 1], readings).Some? then 1 else 0)
  }

  /** The red statuses are exactly the sensors whose latest reading is out of band. */
  lemma {:induction false} CriticalMatchesViolations(sensors: seq<SensorRow>, readings: seq<SensorData>, now: int)
    ensures CountRed(Statuses(sensors, readings, now)) == CountViolating(sensors, readings)
  {
    if sensors != [] {
      var init := sensors[..|sensors| - 1];
      CriticalMatchesViolations(init, readings, now);
      var st := Statuses(sensors, readings, now);
      assert st[..|st| - 1] == Statuses(init, readings, now);
      var s := sensors[|sensors| - 1];
      assert (StatusOf(s, readings, now).color == Red) == (StatusOf(s, readings, 0).color == Red);
    }
  }

  /** `acknowledge_alert`: the alert with that id (its position plus one) becomes
      acknowledged; an absent id changes nothing. */
  function Acknowledge(db: Db, alertId: int): (r: Db)
    ensures r.sensors == db.sensors && r.readings == db.readings && |r.alerts| == |db.alerts|
    ensures forall i :: 0 <= i < |db.alerts| && i != alertId - 1 ==> r.alerts[i] == db.alerts[i]
    ensures 1 <= alertId <= |db.alerts| ==> r.alerts[alertId - 1] == db.alerts[alertId - 1].(acknowledged := true)
    ensures !(1 <= alertId <= |db.alerts|) ==> r == db
  {
    if 1 <= alertId <= |db.alerts| then
      db.(alerts := db.alerts[alertId - 1 := db.alerts[alertId - 1].(acknowledged := true)])
    else db
  }

  /** After its only open alert is acknowledged, a sensor still in violation gets a new
      alert at the next check. */
  lemma AcknowledgeReopens(db: Db, s: SensorRow, alertId: int)
    requires 1 <= alertId <= |db.alerts|
    requires LatestViolation(s, db.readings).Some?
    requires var kind := DashboardKind(LatestViolation(s, db.readings).value);
      OpenCount(db.alerts, s.id, kind) == 1 &&
      db.alerts[alertId - 1].sensorId == s.id && db.alerts[alertId - 1].kind == kind &&
      !db.alerts[alertId - 1].acknowledged
    ensures |CheckSensor(Acknowledge(db, alertId), s).alerts| == |db.alerts| + 1
  {
    var kind := DashboardKind(LatestViolation(s, db.readings).value);
    var acked := Acknowledge(db, alertId);
    if HasOpen(acked.alerts, s.id, kind) {
      var i :| 0 <= i < |acked.alerts| && acked.alerts[i].sensorId == s.id && acked.alerts[i].kind == kind &&
               !acked.alerts[i].acknowledged;
      assert i != alertId - 1;
      TwoOpen(db.alerts, s.id, kind, i, alertId - 1);
    }
  }

  /** Two different open alerts of one sensor and type count as at least two. */
  lemma {:induction false} TwoOpen(alerts: seq<Alert>, sensorId: int, kind: string, i: nat, j: nat)
    requires i < |alerts| && j < |alerts| && i != j
    requires alerts[i].sensorId == sensorId && alerts[i].kind == kind && !alerts[i].acknowledged
    requires alerts[j].sensorId == sensorId && alerts[j].kind == kind && !alerts[j].acknowledged
    ensures OpenCount(alerts, sensorId, kind) >= 2
  {
    var init := alerts[..|alerts| - 1];
    if i == |alerts| - 1 || j == |alerts| - 1 {
      var k := if i == |alerts| - 1 then j else i;
      assert init[k] == alerts[k];
      OpenCountPositive(init, sensorId, kind);
    } else {
      assert init[i] == alerts[i] && init[j] == alerts[j];
      TwoOpen(init, sensorId, kind, i, j);
    }
  }

  class DashboardState {
    var totalSensors: nat
    var activeAlerts: nat
    var totalParcels: nat
    var sensorStatuses: seq<SensorStatus>
    var isPolling: bool

    /** The initial state: zero counters, no statuses, not polling. */
    constructor ()
      ensures totalSensors == 0 && activeAlerts == 0 && totalParcels == 0
      ensures sensorStatuses == [] && !isPolling
    {
      totalSensors, activeAlerts, totalParcels := 0, 0, 0;
      sensorStatuses := [];
      isPolling := false;
    }

    /** `critical_count`: the number of red statuses. */
    function CriticalCount(): (n: nat)
      reads this
      ensures n <= |sensorStatuses|
    {
      CountRed(sensorStatuses)
    }

    /** `load_dashboard_stats`. Without a user the status list is emptied. Without an
        accessible parcel every counter is zeroed. Otherwise the counters and the
        statuses describe the sensors of the accessible parcels, each sensor in
        violation has an open alert of its type, and `activeAlerts` counts their open
        alerts. `userId` 0 counts as no user, as in the source. */
    method LoadDashboardStats(userId: Option<int>, role: Option<string>, parcels: seq<ParcelRow>,
                              assignments: seq<Assignment>, db: Db, now: int) returns (r: Db)
      modifies this
      ensures isPolling == old(isPolling)
      ensures userId.None? || userId == Some(0) ==>
        r == db && sensorStatuses == [] &&
        totalSensors == old(totalSensors) && activeAlerts == old(activeAlerts) && totalParcels == old(totalParcels)
      ensures userId.Some? && userId != Some(0) && Accessible(role, userId.value, parcels, assignments) == [] ==>
        r == db && sensorStatuses == [] && totalSensors == 0 && activeAlerts == 0 && totalParcels == 0
      ensures userId.Some? && userId != Some(0) && Accessible(role, userId.value, parcels, assignments) != [] ==>
        var ids := Ids(Accessible(role, userId.value, parcels, assignments), ParcelKey);
        var sensors := SensorsIn(db.sensors, ids);
        totalParcels == |ids| && totalSensors == |sensors| &&
        sensorStatuses == Statuses(sensors, db.readings, now) &&
        r == CheckAll(db, sensors) &&
        activeAlerts == OpenAlertCount(r.alerts, Ids(sensors, SensorKey)) &&
        activeAlerts == OpenAlertCount(db.alerts, Ids(sensors, SensorKey)) + (|r.alerts| - |db.alerts|)
    {
      if userId.None? || userId == Some(0) {
        sensorStatuses := [];
        return db;
      }
      var accessible := Accessible(role, userId.value, parcels, assignments);
      var ids := Ids(accessible, ParcelKey);
      if ids == [] {
        totalSensors, totalParcels, activeAlerts := 0, 0, 0;
        sensorStatuses := [];
        return db;
      }
      totalParcels := |ids|;
      var sensors := SensorsIn(db.sensors, ids);
      totalSensors := |sensors|;
      var statusList := [];
      r := db;
      for i := 0 to |sensors|
        invariant r == CheckAll(db, sensors[..i])
        invariant statusList == Statuses(sensors[..i], db.readings, now)
      {
        var sensor := sensors[i];
        assert sensors[..i + 1][..i] == sensors[..i];
        statusList := statusList + [StatusOf(sensor, r.readings, now)];
        r := CheckSensor(r, sensor);
      }
      assert sensors[..|sensors|] == sensors;
      sensorStatuses := statusList;
      activeAlerts := OpenAlertCount(r.alerts, Ids(sensors, SensorKey));
      CheckAllCount(db, sensors);
    }

    /** `acknowledge_alert`: acknowledge, then reload the statistics from the
        acknowledged tables, with the same three outcomes as `LoadDashboardStats`. */
    method AcknowledgeAlert(alertId: int, userId: Option<int>, role: Option<string>, parcels: seq<ParcelRow>,
                            assignments: seq<Assignment>, db: Db, now: int) returns (r: Db)
      modifies this
      ensures isPolling == old(isPolling)
      ensures userId.None? || userId == Some(0) ==>
        r == Acknowledge(db, alertId) && sensorStatuses == [] &&
        totalSensors == old(totalSensors) && activeAlerts == old(activeAlerts) && totalParcels == old(totalParcels)
      ensures userId.Some? && userId != Some(0) && Accessible(role, userId.value, parcels, assignments) == [] ==>
        r == Acknowledge(db, alertId) && sensorStatuses == [] &&
        totalSensors == 0 && activeAlerts == 0 && totalParcels == 0
      ensures userId.Some? && userId != Some(0) && Accessible(role, userId.value, parcels, assignments) != [] ==>
        var acked := Acknowledge(db, alertId);
        var ids := Ids(Accessible(role, userId.value, parcels, assignments), ParcelKey);
        var sensors := SensorsIn(db.sensors, ids);
        totalParcels == |ids| && totalSensors == |sensors| &&
        sensorStatuses == Statuses(sensors, db.readings, now) &&
        r == CheckAll(acked, sensors) &&
        activeAlerts == OpenAlertCount(r.alerts, Ids(sensors, SensorKey)) &&
        activeAlerts == OpenAlertCount(acked.alerts, Ids(sensors, SensorKey)) + (|r.alerts| - |db.alerts|)
    {
      var acked := Acknowledge(db, alertId);
      r := LoadDashboardStats(userId, role, parcels, assignments, acked, now);
    }

    /** `start_polling`: a second start is a no-op; the polling loop itself is timing. */
    method StartPolling()
      modifies this
      ensures isPolling
      ensures totalSensors == old(totalSensors) && activeAlerts == old(activeAlerts)
      ensures totalParcels == old(totalParcels) && sensorStatuses == old(sensorStatuses)
    {
      if isPolling {
        return;
      }
      isPolling := true;
    }

    /** `stop_polling`. */
    method StopPolling()
      modifies this
      ensures !isPolling
      ensures totalSensors == old(totalSensors) && activeAlerts == old(activeAlerts)
      ensures totalParcels == old(totalParcels) && sensorStatuses == old(sensorStatuses)
    {
      isPolling := false;
    }
  }
}
