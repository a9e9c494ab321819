/** The topic router of `app/app.py`: at start-up the active sensors are grouped by MQTT
    topic, one client registration is made per topic, and the callback of a topic saves
    the delivered reading for every sensor of its group, checking each against the
    sensor's thresholds. */
module App {
  import opened Wrappers
  import opened Text
  import opened PyValues
  import opened Records
  import opened Seqs
  import MqttClient

  // ---------------------------------------------------------------------------------
  // Saving one reading: `save_sensor_reading_direct` and `check_thresholds_direct`.

  /** `save_sensor_reading_direct`: store the reading built from `data` and then check
      its value against the sensor's thresholds, with `utcNow` as the clock of both.
      When the reading cannot be built, nothing changes. */
  function SaveSensorReadingDirect(db: Db, sensorId: int, metric: string, data: Dict, utcNow: int): (r: Db)
    ensures r.sensors == db.sensors
    ensures ReadingOf(sensorId, metric, data, utcNow).None? ==> r == db
    ensures ReadingOf(sensorId, metric, data, utcNow).Some? ==>
      var d := ReadingOf(sensorId, metric, data, utcNow).value;
      r.readings == db.readings + [d] &&
      |db.alerts| <= |r.alerts| <= |db.alerts| + 1 && r.alerts[..|db.alerts|] == db.alerts &&
      (|r.alerts| == |db.alerts| + 1 <==>
         FindSensor(db.sensors, sensorId).Some? &&
         Classify(d.value, FindSensor(db.sensors, sensorId).value.thresholdLow,
                  FindSensor(db.sensors, sensorId).value.thresholdHigh).Some?)
  {
    match ReadingOf(sensorId, metric, data, utcNow)
    case None => db
    case Some(d) => ThresholdAlert(db.(readings := db.readings + [d]), sensorId, metric, d.value, false, utcNow)
  }

  // ---------------------------------------------------------------------------------
  // The fan-out callback of one topic.

  /** The metric a sensor reads in the fan-out: `type_map.get(s_type, s_type)`. */
  function FanOutMetric(s: SensorInfo): (m: string)
    ensures s.kind in TypeMap ==> m in Payload.MetricKeys
    ensures s.kind !in TypeMap ==> m == s.kind
  {
    MapType(s.kind, s.kind)
  }

  /** What the callback of a topic does to the tables: each sensor of the group in
      order, a failure for one sensor leaving the tables as they were. */
  function FanOutAll(db: Db, group: seq<SensorInfo>, data: Dict, utcNow: int): (r: Db)
    ensures r.sensors == db.sensors
    ensures |db.readings| <= |r.readings| && r.readings[..|db.readings|] == db.readings
  {
    if group == [] then db
    else
      var s := group[|group| - 1];
      var prev := FanOutAll(db, group[..|group| - 1], data, utcNow);
      var r := SaveSensorReadingDirect(prev, s.id, FanOutMetric(s), data, utcNow);
      assert r.readings[..|db.readings|] == prev.readings[..|db.readings|];
      r
  }

  /** `on_data` of `make_callback_for_topic`: visit every sensor of the group in order,
      mapping its type, and save the reading for it. */
  method FanOut(db: Db, group: seq<SensorInfo>, data: Dict, utcNow: int) returns (r: Db)
    ensures r == FanOutAll(db, group, data, utcNow)
  {
    r := db;
    for i := 0 to |group|
      invariant r == FanOutAll(db, group[..i], data, utcNow)
    {
      var s := group[i];
      var metric := MapType(s.kind, s.kind);
      assert group[..i + 1][..i] == group[..i];
      r := SaveSensorReadingDirect(r, s.id, metric, data, utcNow);
    }
    assert group[..|group|] == group;
  }

  /** Fanning out over two groups one after the other is fanning out over both. */
  lemma {:induction false} FanOutConcat(db: Db, a: seq<SensorInfo>, b: seq<SensorInfo>, data: Dict, utcNow: int)
    ensures FanOutAll(db, a + b, data, utcNow) == FanOutAll(FanOutAll(db, a, data, utcNow), b, data, utcNow)
  {
    if b == [] {
      assert a + b == a;
    } else {
      FanOutConcat(db, a, b[..|b| - 1], data, utcNow);
      assert (a + b)[..|a + b| - 1] == a + b[..|b| - 1];
    }
  }

  /** A sensor whose reading fails is skipped and the loop goes on: the tables end up as
      if that sensor were not in the group. */
  lemma FailureIsolated(db: Db, group: seq<SensorInfo>, j: nat, data: Dict, utcNow: int)
    requires j < |group|
    requires ReadingOf(group[j].id, FanOutMetric(group[j]), data, utcNow).None?
    ensures FanOutAll(db, group, data, utcNow) == FanOutAll(db, group[..j] + group[j + 1..], data, utcNow)
  {
    var a, x, b := group[..j], group[j], group[j + 1..];
    assert group == (a + [x]) + b;
    FanOutConcat(db, a + [x], b, data, utcNow);
    FanOutConcat(db, a, [x], data, utcNow);
    assert [x][..0] == [];
    FanOutConcat(db, a, b, data, utcNow);
  }

  /** Every sensor of the group whose reading can be built gets that reading stored. */
  lemma {:induction false} FanOutStoresEach(db: Db, group: seq<SensorInfo>, j: nat, data: Dict, utcNow: int)
    requires j < |group|
    requires ReadingOf(group[j].id, FanOutMetric(group[j]), data, utcNow).Some?
    ensures ReadingOf(group[j].id, FanOutMetric(group[j]), data, utcNow).value
            in FanOutAll(db, group, data, utcNow).readings
  {
    var d := ReadingOf(group[j].id, FanOutMetric(group[j]), data, utcNow).value;
    var init := group[..|group| - 1];
    var prev := FanOutAll(db, init, data, utcNow);
    var r := FanOutAll(db, group, data, utcNow);
    if j == |group| - 1 {
      assert r.readings == prev.readings + [d];
    } else {
      FanOutStoresEach(db, init, j, data, utcNow);
      assert d in r.readings[..|prev.readings|];
    }
  }

  // ---------------------------------------------------------------------------------
  // Grouping the active sensors by topic: `load_existing_sensors`.

  /** The rows of the query `Sensor.active == True`, in query order. */
  function ActiveSensors(rows: seq<SensorRow>): (r: seq<SensorRow>)
    ensures forall x :: x in r <==> x in rows && x.active
    ensures |r| <= |rows|
  {
    if rows == [] then []
    else
      var init := ActiveSensors(rows[..|rows| - 1]);
      var x := rows[|rows| - 1];
      assert forall y :: y in rows <==> y in rows[..|rows| - 1] || y == x;
      if x.active then init + [x] else init
  }

  /** The `{'id', 'code', 'type'}` entry kept for a sensor. */
  function InfoOf(row: SensorRow): SensorInfo {
    SensorInfo(row.id, row.idCode, row.kind)
  }

  /** Some row has that topic. */
  predicate HasTopic(rows: seq<SensorRow>, topic: string) {
    exists i :: 0 <= i < |rows| && rows[i].mqttTopic == topic
  }

  lemma HasTopicSnoc(rows: seq<SensorRow>, topic: string)
    requires rows != []
    ensures HasTopic(rows, topic) <==> HasTopic(rows[..|rows| - 1], topic) || rows[|rows| - 1].mqttTopic == topic
  {
    var init := rows[..|rows| - 1];
    if HasTopic(rows, topic) {
      var i :| 0 <= i < |rows| && rows[i].mqttTopic == topic;
      if i < |init| {
        assert init[i].mqttTopic == topic;
      }
    }
    if HasTopic(init, topic) {
      var i :| 0 <= i < |init| && init[i].mqttTopic == topic;
      assert rows[i].mqttTopic == topic;
    }
  }

  /** The keys of `sensors_by_topic`: each topic once, in order of first appearance. */
  function TopicsOf(rows: seq<SensorRow>): (r: seq<string>)
    ensures Distinct(r)
    ensures forall t :: t in r <==> HasTopic(rows, t)
  {
    if rows == [] then []
    else
      var init := rows[..|rows| - 1];
      var prev := TopicsOf(init);
      var t := rows[|rows| - 1].mqttTopic;
      assert forall u :: HasTopic(rows, u) <==> HasTopic(init, u) || u == t by {
        forall u ensures HasTopic(rows, u) <==> HasTopic(init, u) || u == t {
          HasTopicSnoc(rows, u);
        }
      }
      if t in prev then prev else prev + [t]
  }

  /** `sensors_by_topic[topic]`: the sensors of that topic in query order. */
  function GroupOf(rows: seq<SensorRow>, topic: string): (r: seq<SensorInfo>)
    ensures |r| <= |rows|
    ensures r == [] <==> !HasTopic(rows, topic)
  {
    if rows == [] then []
    else
      var x := rows[|rows| - 1];
      HasTopicSnoc(rows, topic);
      GroupOf(rows[..|rows| - 1], topic) + (if x.mqttTopic == topic then [InfoOf(x)] else [])
  }

  /** The sizes of the groups of the given topics, added up. */
  function GroupSizes(topics: seq<string>, rows: seq<SensorRow>): nat {
    if topics == [] then 0
    else GroupSizes(topics[..|topics| - 1], rows) + |GroupOf(rows, topics[|topics| - 1])|
  }

  /** The group of a topic lists its sensors in query order: its `k`-th entry comes from
      the `k`-th row with that topic. */
  lemma {:induction false} GroupOfOrder(rows: seq<SensorRow>, topic: string, i: nat)
    requires i < |rows| && rows[i].mqttTopic == topic
    ensures var k := |GroupOf(rows[..i], topic)|;
      k < |GroupOf(rows, topic)| && GroupOf(rows, topic)[k] == InfoOf(rows[i])
  {
    var init := rows[..|rows| - 1];
    if i == |rows| - 1 {
      assert rows[..i] == init;
    } else {
      assert init[..i] == rows[..i];
      GroupOfOrder(init, topic, i);
    }
  }

  /** A topic of the grouping has a non-empty group whose first entry is the first
      sensor of that topic in query order. */
  lemma FirstOfGroup(rows: seq<SensorRow>, topic: string, i: nat)
    requires i < |rows| && rows[i].mqttTopic == topic
    requires forall j :: 0 <= j < i ==> rows[j].mqttTopic != topic
    ensures GroupOf(rows, topic) != [] && GroupOf(rows, topic)[0] == InfoOf(rows[i])
  {
    assert !HasTopic(rows[..i], topic);
    NoGroupBefore(rows[..i], topic);
    GroupOfOrder(rows, topic, i);
  }

  /** A topic no row has has an empty group. */
  lemma {:induction false} NoGroupBefore(rows: seq<SensorRow>, topic: string)
    requires !HasTopic(rows, topic)
    ensures GroupOf(rows, topic) == []
  {
    if rows != [] {
      HasTopicSnoc(rows, topic);
      NoGroupBefore(rows[..|rows| - 1], topic);
    }
  }

  /** Adding a row grows the groups of distinct topics by one exactly when its topic is
      among them. */
  lemma {:induction false} GroupSizesSnoc(topics: seq<string>, rows: seq<SensorRow>, x: SensorRow)
    requires Distinct(topics)
    ensures GroupSizes(topics, rows + [x]) == GroupSizes(topics, rows) + (if x.mqttTopic in topics then 1 else 0)
  {
    if topics != [] {
      var init := topics[..|topics| - 1];
      assert Distinct(init);
      GroupSizesSnoc(init, rows, x);
      assert (rows + [x])[..|rows|] == rows;
      assert topics == init + [topics[|topics| - 1]];
    }
  }

  /** Every sensor lands in exactly one group: the group sizes add up to the number of
      sensors grouped. */
  lemma {:induction false} GroupSizesTotal(rows: seq<SensorRow>)
    ensures GroupSizes(TopicsOf(rows), rows) == |rows|
  {
    if rows != [] {
      var init := rows[..|rows| - 1];
      var x := rows[|rows| - 1];
      GroupSizesTotal(init);
      var prev := TopicsOf(init);
      assert rows == init + [x];
      GroupSizesSnoc(prev, init, x);
      if x.mqttTopic !in prev {
        assert TopicsOf(rows) == prev + [x.mqttTopic];
        assert (prev + [x.mqttTopic])[..|prev|] == prev;
        assert |GroupOf(rows, x.mqttTopic)| == 1 by {
          NoGroupBefore(init, x.mqttTopic);
        }
      }
    }
  }

  /** `sensors_by_topic`, built by one pass over the active sensors. */
  method GroupByTopic(active: seq<SensorRow>) returns (topics: seq<string>, groups: map<string, seq<SensorInfo>>)
    ensures topics == TopicsOf(active)
    ensures forall t :: t in groups <==> t in topics
    ensures forall t :: t in groups ==> groups[t] == GroupOf(active, t)
  {
    topics, groups := [], map[];
    for i := 0 to |active|
      invariant topics == TopicsOf(active[..i])
      invariant forall t :: t in groups <==> t in topics
      invariant forall t :: t in groups ==> groups[t] == GroupOf(active[..i], t)
    {
      var sensor := active[i];
      var topic := sensor.mqttTopic;
      assert active[..i + 1][..i] == active[..i];
      assert forall t :: GroupOf(active[..i + 1], t) == GroupOf(active[..i], t) + (if topic == t then [InfoOf(sensor)] else []);
      if topic !in groups {
        NoGroupBefore(active[..i], topic);
        topics := topics + [topic];
        groups := groups[topic := []];
      }
      groups := groups[topic := groups[topic] + [InfoOf(sensor)]];
    }
    assert active[..|active|] == active;
  }

  /** The registration made for a topic, from the first sensor of its group: its id,
      the code `"Topic_" + topic[:20]` and its type mapped with fallback `temperatura`. */
  function Registration(group: seq<SensorInfo>, topic: string): (info: SensorInfo)
    requires group != []
    ensures info.id == group[0].id && info.code == "Topic_" + Prefix(topic, 20)
    ensures group[0].kind in TypeMap ==> info.kind in Payload.MetricKeys
    ensures group[0].kind !in TypeMap ==> info.kind == "temperatura"
  {
    SensorInfo(group[0].id, "Topic_" + Prefix(topic, 20), MapType(group[0].kind, "temperatura"))
  }

  /** The callbacks registered for the given topics: each fans out to its group. */
  function Handlers(topics: seq<string>, rows: seq<SensorRow>): (m: map<string, Handler>)
    ensures forall t :: t in m <==> t in topics
    ensures forall t :: t in m ==> m[t] == TopicFanOut(GroupOf(rows, t))
  {
    if topics == [] then map[]
    else
      var t := topics[|topics| - 1];
      Handlers(topics[..|topics| - 1], rows)[t := TopicFanOut(GroupOf(rows, t))]
  }

  /** The sensor information registered for the given topics of the rows. */
  function Registrations(topics: seq<string>, rows: seq<SensorRow>): (m: map<string, SensorInfo>)
    requires forall t :: t in topics ==> HasTopic(rows, t)
    ensures forall t :: t in m <==> t in topics
    ensures forall t :: t in m ==> GroupOf(rows, t) != [] && m[t] == Registration(GroupOf(rows, t), t)
  {
    if topics == [] then map[]
    else
      var t := topics[|topics| - 1];
      GroupNotEmpty(rows, t);
      Registrations(topics[..|topics| - 1], rows)[t := Registration(GroupOf(rows, t), t)]
  }

  /** `load_existing_sensors`: one registration per topic of the active sensors,
      replacing any earlier one for that topic, whose callback fans out to the whole
      group; the reported total is the number of active sensors. */
  method LoadExistingSensors(client: MqttClient.MultiSensorClient<Handler>, rows: seq<SensorRow>) returns (total: nat)
    requires client.Valid()
    modifies client
    ensures client.Valid()
    ensures total == |ActiveSensors(rows)|
    ensures client.topicCallbacks == old(client.topicCallbacks) + Handlers(TopicsOf(ActiveSensors(rows)), ActiveSensors(rows))
    ensures client.activeSensors == old(client.activeSensors) + Registrations(TopicsOf(ActiveSensors(rows)), ActiveSensors(rows))
    ensures client.topicOrder == Inserted(old(client.topicOrder), TopicsOf(ActiveSensors(rows)))
    ensures client.brokerCalls == old(client.brokerCalls) +
      (if old(client.isConnected) then MqttClient.Subscriptions(TopicsOf(ActiveSensors(rows))) else [])
    ensures client.isConnected == old(client.isConnected)
    ensures client.reconnectAttempts == old(client.reconnectAttempts)
  {
    var active := ActiveSensors(rows);
    var topics, groups := GroupByTopic(active);
    RegisterTopics(client, topics, groups, active);
    GroupSizesTotal(active);
    total := GroupSizes(topics, active);
  }

  /** The registration loop of `load_existing_sensors`: for each topic, in order, the
      first sensor of its group gives the id and type of the registration, and the
      callback fans out to the whole group. */
  method RegisterTopics(client: MqttClient.MultiSensorClient<Handler>, topics: seq<string>,
                        groups: map<string, seq<SensorInfo>>, active: seq<SensorRow>)
    requires client.Valid()
    requires forall t :: t in topics ==> HasTopic(active, t) && t in groups && groups[t] == GroupOf(active, t)
    modifies client
    ensures client.Valid()
    ensures client.topicCallbacks == old(client.topicCallbacks) + Handlers(topics, active)
    ensures client.activeSensors == old(client.activeSensors) + Registrations(topics, active)
    ensures client.topicOrder == Inserted(old(client.topicOrder), topics)
    ensures client.brokerCalls == old(client.brokerCalls) +
      (if old(client.isConnected) then MqttClient.Subscriptions(topics) else [])
    ensures client.isConnected == old(client.isConnected)
    ensures client.reconnectAttempts == old(client.reconnectAttempts)
  {
    for i := 0 to |topics|
      invariant client.Valid()
      invariant client.topicCallbacks == old(client.topicCallbacks) + Handlers(topics[..i], active)
      invariant client.activeSensors == old(client.activeSensors) + Registrations(topics[..i], active)
      invariant client.topicOrder == Inserted(old(client.topicOrder), topics[..i])
      invariant client.brokerCalls == old(client.brokerCalls) +
        (if old(client.isConnected) then MqttClient.Subscriptions(topics[..i]) else [])
      invariant client.isConnected == old(client.isConnected)
      invariant client.reconnectAttempts == old(client.reconnectAttempts)
    {
      var topic := topics[i];
      var sensorsList := groups[topic];
      HandlersNext(old(client.topicCallbacks), topics, active, i);
      RegistrationsNext(old(client.activeSensors), topics, active, i);
      InsertedNext(old(client.topicOrder), topics, i);
      SubscriptionsNext(old(client.brokerCalls), topics, i);
      var first := sensorsList[0];
      client.AddSensor(first.id, "Topic_" + Prefix(topic, 20), MapType(first.kind, "temperatura"), topic,
                       TopicFanOut(sensorsList));
    }
    assert topics[..|topics|] == topics;
  }

  /** Registering the callback of the next topic gives the callbacks of one more topic. */
  lemma HandlersNext(callbacks: map<string, Handler>, topics: seq<string>, rows: seq<SensorRow>, i: nat)
    requires i < |topics|
    ensures (callbacks + Handlers(topics[..i], rows))[topics[i] := TopicFanOut(GroupOf(rows, topics[i]))]
         == callbacks + Handlers(topics[..i + 1], rows)
  {
    var prefix := topics[..i + 1];
    assert prefix[..|prefix| - 1] == topics[..i] && prefix[|prefix| - 1] == topics[i];
    OverrideUpdate(callbacks, Handlers(topics[..i], rows), topics[i], TopicFanOut(GroupOf(rows, topics[i])));
  }

  /** Registering the sensor information of the next topic gives the registrations of
      one more topic. */
  lemma RegistrationsNext(infos: map<string, SensorInfo>, topics: seq<string>, rows: seq<SensorRow>, i: nat)
    requires i < |topics| && forall t :: t in topics ==> HasTopic(rows, t)
    ensures GroupOf(rows, topics[i]) != []
    ensures (infos + Registrations(topics[..i], rows))[topics[i] := Registration(GroupOf(rows, topics[i]), topics[i])]
         == infos + Registrations(topics[..i + 1], rows)
  {
    GroupNotEmpty(rows, topics[i]);
    var prefix := topics[..i + 1];
    assert prefix[..|prefix| - 1] == topics[..i] && prefix[|prefix| - 1] == topics[i];
    OverrideUpdate(infos, Registrations(topics[..i], rows), topics[i], Registration(GroupOf(rows, topics[i]), topics[i]));
  }

  /** The key order after one more topic. */
  lemma InsertedNext(order: seq<string>, topics: seq<string>, i: nat)
    requires i < |topics|
    ensures Inserted(order, topics[..i + 1])
         == if topics[i] in Inserted(order, topics[..i]) then Inserted(order, topics[..i])
            else Inserted(order, topics[..i]) + [topics[i]]
  {
    var prefix := topics[..i + 1];
    assert prefix[..|prefix| - 1] == topics[..i] && prefix[|prefix| - 1] == topics[i];
  }

  /** The subscriptions after one more topic. */
  lemma SubscriptionsNext(calls: seq<MqttClient.BrokerCall>, topics: seq<string>, i: nat)
    requires i < |topics|
    ensures calls + MqttClient.Subscriptions(topics[..i + 1])
         == calls + MqttClient.Subscriptions(topics[..i]) + [MqttClient.Subscribe(topics[i])]
  {
    var prefix := topics[..i + 1];
    assert prefix[..|prefix| - 1] == topics[..i] && prefix[|prefix| - 1] == topics[i];
  }

  /** Updating a key after an override is overriding with the updated map. */
  lemma OverrideUpdate<K, V>(m: map<K, V>, n: map<K, V>, k: K, v: V)
    ensures (m + n)[k := v] == m + n[k := v]
  {
  }

  /** Every topic of the grouping has at least one sensor. */
  lemma GroupNotEmpty(rows: seq<SensorRow>, topic: string)
    requires HasTopic(rows, topic)
    ensures GroupOf(rows, topic) != []
  {
    var i :| 0 <= i < |rows| && rows[i].mqttTopic == topic;
    GroupOfOrder(rows, topic, i);
  }
}
