/** The stored tables the ingestion path reads and writes (`app/models.py`), the
    threshold classification shared by every writer of alerts, and the mapping from
    sensor types to the metric names of a decoded payload. The database is a value:
    each operation takes the tables and returns the new tables. */
module Records {
  import opened Wrappers
  import opened PyValues
  import Payload

  /** A row of the `Sensor` table. */
  datatype SensorRow = SensorRow(
    id: int,
    idCode: string,
    parcelId: int,
    kind: string,
    unit: string,
    description: string,
    thresholdLow: real,
    thresholdHigh: real,
    active: bool,
    mqttTopic: string)

  /** What the client and the topic router keep about a sensor: its id, code and type. */
  datatype SensorInfo = SensorInfo(id: int, code: string, kind: string)

  /** The statistics a flush stores in the `raw` column of an averaged reading. */
  datatype Summary = Summary(
    intervalMinutes: int,
    samplesCount: nat,
    min: real,
    max: real,
    avg: real,
    sensorType: string,
    timestamp: int,
    lastSample: Option<Dict>)

  /** The `raw` column: the payload text as received, the JSON dump of the whole
      decoded message, or a flush summary. */
  datatype Raw = RawPayload(v: Value) | JsonDump(d: Dict) | Aggregated(s: Summary)

  /** A row of the `SensorData` table. */
  datatype SensorData = SensorData(sensorId: int, timestamp: int, value: real, raw: Raw)

  /** The text of an alert, kept as its parts rather than formatted. `averaged` tells a
      flush ("Media") from a single reading ("Valor"). */
  datatype Message =
    | PipelineMessage(code: string, metric: string, averaged: bool, value: real, unit: string,
                      below: bool, limit: real)
    | StatusMessage(value: real, unit: string, below: bool, limit: real)

  /** A row of the `Alert` table; its id is its position in the table plus one. */
  datatype Alert = Alert(sensorId: int, timestamp: int, kind: string, message: Message, acknowledged: bool)

  /** The tables, in insertion order. */
  datatype Db = Db(sensors: seq<SensorRow>, readings: seq<SensorData>, alerts: seq<Alert>)

  /** `session.get(Sensor, id)`: the row with that primary key, if any. */
  function FindSensor(sensors: seq<SensorRow>, id: int): (r: Option<SensorRow>)
    ensures r.Some? <==> exists i :: 0 <= i < |sensors| && sensors[i].id == id
    ensures r.Some? ==> r.value in sensors && r.value.id == id
  {
    if sensors == [] then None
    else if sensors[0].id == id then Some(sensors[0])
    else FindSensor(sensors[1..], id)
  }

  /** A reading outside its band, below the low or above the high threshold. */
  datatype Violation = Low | High

  /** The band test every writer of alerts applies: below the low threshold first, then
      above the high one. */
  function Classify(value: real, low: real, high: real): (v: Option<Violation>)
    ensures v == Some(Low) <==> value < low
    ensures v == Some(High) <==> low <= value && high < value
    ensures v == None <==> low <= value <= high
  {
    if value < low then Some(Low) else if value > high then Some(High) else None
  }

  /** The alert type the reading pipeline writes: lower case. */
  function PipelineKind(v: Violation): (r: string)
    ensures r == "low" <==> v == Low
    ensures r == "high" <==> v == High
  {
    match v
    case Low => "low"
    case High => "high"
  }

  /** `check_thresholds_direct` and `SensorDataAggregator._check_thresholds`: look the
      sensor up; when it exists and `value` is outside its band, append one open alert.
      There is no check for an alert that is already open. */
  function ThresholdAlert(db: Db, sensorId: int, metric: string, value: real, averaged: bool, now: int): (r: Db)
    ensures r.sensors == db.sensors && r.readings == db.readings
    ensures FindSensor(db.sensors, sensorId).None? ==> r == db
    ensures FindSensor(db.sensors, sensorId).Some? ==>
      var s := FindSensor(db.sensors, sensorId).value;
      match Classify(value, s.thresholdLow, s.thresholdHigh)
      case None => r == db
      case Some(v) =>
        |r.alerts| == |db.alerts| + 1 && r.alerts[..|db.alerts|] == db.alerts &&
        r.alerts[|db.alerts|].sensorId == sensorId && r.alerts[|db.alerts|].timestamp == now &&
        r.alerts[|db.alerts|].kind == PipelineKind(v) && !r.alerts[|db.alerts|].acknowledged
  {
    match FindSensor(db.sensors, sensorId)
    case None => db
    case Some(s) =>
      match Classify(value, s.thresholdLow, s.thresholdHigh)
      case None => db
      case Some(v) =>
        var limit := if v == Low then s.thresholdLow else s.thresholdHigh;
        var msg := PipelineMessage(s.idCode, metric, averaged, value, s.unit, v == Low, limit);
        var alert := Alert(sensorId, now, PipelineKind(v), msg, false);
        assert (db.alerts + [alert])[..|db.alerts|] == db.alerts;
        db.(alerts := db.alerts + [alert])
  }

  /** The timestamp a stored reading gets: `data['timestamp']` when present, otherwise
      the clock. A present value that is not a datetime is refused by the store, and
      nothing is saved. */
  function StampOf(data: Dict, clock: int): (r: Option<int>)
    ensures "timestamp" !in data ==> r == Some(clock)
    ensures "timestamp" in data ==> (r.Some? <==> data["timestamp"].Time?)
    ensures "timestamp" in data && r.Some? ==> r.value == data["timestamp"].t
  {
    if "timestamp" !in data then Some(clock)
    else match data["timestamp"]
      case Time(t) => Some(t)
      case _ => None
  }

  /** The reading both direct writers build from a delivered dictionary
      (`save_sensor_reading_direct` in `app/app.py`, `_save_sensor_reading` in
      `app/states/sensor_state.py`): the value `float(data.get(metric, 0.0))`, the
      dictionary's timestamp or the clock, and as raw text the payload as received or
      else the JSON dump of the dictionary. `None` when `float` raises or the store
      refuses the timestamp; then nothing is saved. */
  function ReadingOf(sensorId: int, metric: string, data: Dict, clock: int): (r: Option<SensorData>)
    ensures r.Some? <==> MetricValue(data, metric).Some? && StampOf(data, clock).Some?
    ensures r.Some? ==>
      r.value.sensorId == sensorId && r.value.value == MetricValue(data, metric).value &&
      r.value.timestamp == StampOf(data, clock).value
    ensures r.Some? && "raw_payload" in data ==> r.value.raw == RawPayload(data["raw_payload"])
    ensures r.Some? && "raw_payload" !in data ==> r.value.raw == JsonDump(data)
  {
    match MetricValue(data, metric)
    case None => None
    case Some(v) =>
      match StampOf(data, clock)
      case None => None
      case Some(t) =>
        Some(SensorData(sensorId, t, v, if "raw_payload" in data then RawPayload(data["raw_payload"]) else JsonDump(data)))
  }

  /** The callback registered for a topic: the fan-out of `load_existing_sensors` over
      every sensor of the topic (`app/app.py`), or the single-sensor callback of
      `_register_sensor_mqtt` (`app/states/sensor_state.py`). */
  datatype Handler = TopicFanOut(group: seq<SensorInfo>) | SingleSensor(sensorId: int, metric: string)

  /** Open alerts of one sensor with one type. */
  function OpenCount(alerts: seq<Alert>, sensorId: int, kind: string): (n: nat)
    ensures n <= |alerts|
  {
    if alerts == [] then 0
    else
      var last := alerts[|alerts| - 1];
      OpenCount(alerts[..|alerts| - 1], sensorId, kind)
        + (if last.sensorId == sensorId && last.kind == kind && !last.acknowledged then 1 else 0)
  }

  lemma OpenCountAppend(alerts: seq<Alert>, a: Alert, sensorId: int, kind: string)
    ensures OpenCount(alerts + [a], sensorId, kind)
         == OpenCount(alerts, sensorId, kind)
            + (if a.sensorId == sensorId && a.kind == kind && !a.acknowledged then 1 else 0)
  {
    assert (alerts + [a])[..|alerts|] == alerts;
  }

  /** The pipeline does not de-duplicate: every out-of-range check adds another open
      alert of the same sensor and type. */
  lemma ThresholdAlertRepeats(db: Db, sensorId: int, metric: string, value: real, averaged: bool, now: int)
    requires FindSensor(db.sensors, sensorId).Some?
    requires var s := FindSensor(db.sensors, sensorId).value;
      Classify(value, s.thresholdLow, s.thresholdHigh).Some?
    ensures var s := FindSensor(db.sensors, sensorId).value;
      var kind := PipelineKind(Classify(value, s.thresholdLow, s.thresholdHigh).value);
      var twice := ThresholdAlert(ThresholdAlert(db, sensorId, metric, value, averaged, now), sensorId, metric, value, averaged, now);
      OpenCount(twice.alerts, sensorId, kind) == OpenCount(db.alerts, sensorId, kind) + 2
  {
    var s := FindSensor(db.sensors, sensorId).value;
    var kind := PipelineKind(Classify(value, s.thresholdLow, s.thresholdHigh).value);
    var once := ThresholdAlert(db, sensorId, metric, value, averaged, now);
    var twice := ThresholdAlert(once, sensorId, metric, value, averaged, now);
    assert once.alerts == db.alerts + [once.alerts[|db.alerts|]];
    OpenCountAppend(db.alerts, once.alerts[|db.alerts|], sensorId, kind);
    assert twice.alerts == once.alerts + [twice.alerts[|once.alerts|]];
    OpenCountAppend(once.alerts, twice.alerts[|once.alerts|], sensorId, kind);
  }

  /** The sensor types the forms offer and the payload metric each one reads
      (`type_map` in `app/app.py`, `maiota_type_map` in `app/states/sensor_state.py`). */
  const TypeMap: map<string, string> := map[
    "temperature" := "temperatura",
    "humidity_ambient" := "humedad_ambiente",
    "humidity_soil" := "humedad_suelo",
    "luminosity" := "iluminacion",
    "co2" := "co2",
    "cov" := "cov",
    "nox" := "nox"]

  /** `type_map.get(kind, fallback)`. */
  function MapType(kind: string, fallback: string): (m: string)
    ensures kind in TypeMap ==> m in Payload.MetricKeys
    ensures kind !in TypeMap ==> m == fallback
  {
    if kind in TypeMap then TypeMap[kind] else fallback
  }

  /** Every known type reads a numeric metric of the decoded payload, and distinct types
      read distinct metrics. */
  lemma TypeMapCoversMetrics()
    ensures TypeMap.Values == Payload.MetricKeys
    ensures forall a, b :: a in TypeMap && b in TypeMap && a != b ==> TypeMap[a] != TypeMap[b]
  {
    assert TypeMap["temperature"] == "temperatura";
    assert TypeMap["humidity_ambient"] == "humedad_ambiente";
    assert TypeMap["humidity_soil"] == "humedad_suelo";
    assert TypeMap["luminosity"] == "iluminacion";
    assert TypeMap["co2"] == "co2" && TypeMap["cov"] == "cov" && TypeMap["nox"] == "nox";
  }
}
