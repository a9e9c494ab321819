/** One inbound message end to end: the client decodes it and hands the topic's callback
    the enriched data; the callback is either the topic fan-out of `app/app.py` or the
    single-sensor callback of `app/states/sensor_state.py`, and what it stores follows
    from the decoded reading. */
module Ingestion {
  import opened Wrappers
  import opened Text
  import opened PyValues
  import opened Records
  import Payload
  import MqttClient
  import App
  import SensorForm

  /** The value a decoded reading holds for one of its metric keys. */
  function MetricOf(r: Payload.Reading, metric: string): (v: real)
    requires metric in Payload.MetricKeys
    ensures ToFloat(Payload.AsDict(r)[metric]) == Some(v)
  {
    match metric
    case "temperatura" => r.temperatura
    case "humedad_ambiente" => r.humedadAmbiente
    case "humedad_suelo" => r.humedadSuelo
    case "iluminacion" => r.iluminacion
    case "co2" => r.co2 as real
    case "cov" => r.cov as real
    case _ => r.nox as real
  }

  /** Running a delivered callback. The single-sensor callback saves the reading and then
      calls a threshold check that no longer exists; the client swallows that error, so
      only the save takes effect. */
  function RunHandler(db: Db, h: Handler, data: Dict, utcNow: int, localNow: int): (r: Db)
    ensures r.sensors == db.sensors
    ensures |db.readings| <= |r.readings| && r.readings[..|db.readings|] == db.readings
    ensures h.SingleSensor? ==> r.alerts == db.alerts && |r.readings| <= |db.readings| + 1
  {
    match h
    case TopicFanOut(group) => App.FanOutAll(db, group, data, utcNow)
    case SingleSensor(sensorId, metric) =>
      var r := SensorForm.SaveSensorReading(db, sensorId, metric, data, localNow);
      assert r.readings[..|db.readings|] == db.readings;
      r
  }

  /** An inbound message: `_on_message` then the callback it returned. `now` is the
      decoder's clock, `utcNow` and `localNow` the clocks of the two writers. */
  method HandleMessage(client: MqttClient.MultiSensorClient<Handler>, db: Db, topic: string, payload: string,
                       now: int, utcNow: int, localNow: int) returns (r: Db)
    requires client.Valid()
    ensures !(StartsWith(payload, Payload.Marker) && topic in client.topicCallbacks) ==> r == db
    ensures StartsWith(payload, Payload.Marker) && topic in client.topicCallbacks ==>
      r == RunHandler(db, client.topicCallbacks[topic],
                      MqttClient.Enriched(Payload.Decode(payload, now).value, Some(client.activeSensors[topic]), topic, payload),
                      utcNow, localNow)
  {
    var delivery := client.OnMessage(topic, payload, now);
    match delivery
    case None =>
      r := db;
    case Some((handler, data)) =>
      match handler
      case TopicFanOut(group) =>
        r := App.FanOut(db, group, data, utcNow);
      case SingleSensor(sensorId, metric) =>
        r := SensorForm.SaveSensorReading(db, sensorId, metric, data, localNow);
  }

  /** The decoder's keys and the keys the client adds are apart. */
  lemma MetricKeysApart(metric: string)
    requires metric in Payload.MetricKeys
    ensures metric !in MqttClient.ClientKeys && metric != "timestamp"
  {
  }

  /** The enriched data keeps the decoding time as its timestamp. */
  lemma EnrichedTimestamp(r: Payload.Reading, info: Option<SensorInfo>, topic: string, payload: string)
    ensures var data := MqttClient.Enriched(r, info, topic, payload);
      "timestamp" in data && data["timestamp"] == Time(r.timestamp) && "raw_payload" in data
  {
    assert "timestamp" in Payload.AsDict(r) && "timestamp" !in MqttClient.ClientKeys;
  }

  /** The enriched data keeps every decoded metric. */
  lemma EnrichedMetric(r: Payload.Reading, info: Option<SensorInfo>, topic: string, payload: string, metric: string)
    requires metric in Payload.MetricKeys
    ensures MetricValue(MqttClient.Enriched(r, info, topic, payload), metric) == Some(MetricOf(r, metric))
  {
    MetricKeysApart(metric);
    var d := Payload.AsDict(r);
    var data := MqttClient.Enriched(r, info, topic, payload);
    assert metric in d;
    assert data[metric] == d[metric];
    assert ToFloat(d[metric]) == Some(MetricOf(r, metric));
  }

  /** The reading stored for a metric of a decoded message: the decoded value, the
      decoding time as timestamp and the payload text as raw. */
  lemma EnrichedReading(r: Payload.Reading, info: Option<SensorInfo>, topic: string, payload: string,
                        sensorId: int, metric: string, clock: int)
    requires metric in Payload.MetricKeys
    ensures ReadingOf(sensorId, metric, MqttClient.Enriched(r, info, topic, payload), clock)
         == Some(SensorData(sensorId, r.timestamp, MetricOf(r, metric), RawPayload(Str(payload))))
  {
    EnrichedTimestamp(r, info, topic, payload);
    EnrichedMetric(r, info, topic, payload, metric);
  }

  /** A sensor registered from the form stores exactly the decoded value of its metric,
      stamped with the decoding time, and raises no alert. */
  lemma SingleSensorStoresDecoded(db: Db, sensorId: int, metric: string, r: Payload.Reading, info: Option<SensorInfo>,
                                  topic: string, payload: string, utcNow: int, localNow: int)
    requires metric in Payload.MetricKeys
    ensures var after := RunHandler(db, SingleSensor(sensorId, metric), MqttClient.Enriched(r, info, topic, payload), utcNow, localNow);
      after.readings == db.readings + [SensorData(sensorId, r.timestamp, MetricOf(r, metric), RawPayload(Str(payload)))] &&
      after.alerts == db.alerts
  {
    EnrichedReading(r, info, topic, payload, sensorId, metric, localNow);
  }

  /** Every sensor of a fanned-out topic whose type maps to a metric gets the decoded
      value of that metric stored. */
  lemma FanOutStoresDecoded(db: Db, group: seq<SensorInfo>, j: nat, r: Payload.Reading, info: Option<SensorInfo>,
                            topic: string, payload: string, utcNow: int, localNow: int)
    requires j < |group| && App.FanOutMetric(group[j]) in Payload.MetricKeys
    ensures SensorData(group[j].id, r.timestamp, MetricOf(r, App.FanOutMetric(group[j])), RawPayload(Str(payload)))
            in RunHandler(db, TopicFanOut(group), MqttClient.Enriched(r, info, topic, payload), utcNow, localNow).readings
  {
    EnrichedReading(r, info, topic, payload, group[j].id, App.FanOutMetric(group[j]), utcNow);
    App.FanOutStoresEach(db, group, j, MqttClient.Enriched(r, info, topic, payload), utcNow);
  }

  /** In the fan-out, a sensor whose type is neither a known type nor a key of the
      delivered data reads the default and stores 0.0. */
  lemma UnknownTypeStoresZero(s: SensorInfo, r: Payload.Reading, info: Option<SensorInfo>, topic: string,
                              payload: string, utcNow: int)
    requires s.kind !in TypeMap
    requires s.kind !in Payload.MetricKeys + {"timestamp", "humedad_suelo_baja"} + MqttClient.ClientKeys
    ensures ReadingOf(s.id, App.FanOutMetric(s), MqttClient.Enriched(r, info, topic, payload), utcNow)
         == Some(SensorData(s.id, r.timestamp, 0.0, RawPayload(Str(payload))))
  {
    EnrichedTimestamp(r, info, topic, payload);
    assert s.kind !in MqttClient.Enriched(r, info, topic, payload);
  }

  /** The form's callback and the router's writer store the same reading for the same
      data and clock; only the router's writer checks thresholds. */
  lemma WritersAgree(db: Db, sensorId: int, metric: string, data: Dict, clock: int)
    ensures SensorForm.SaveSensorReading(db, sensorId, metric, data, clock).readings
         == App.SaveSensorReadingDirect(db, sensorId, metric, data, clock).readings
  {
  }
}
