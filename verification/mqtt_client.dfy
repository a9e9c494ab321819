/** The registry and connection state of `MAIoTAMultiSensorClient`
    (`app/services/maiota_client.py`): which topics are registered, with which sensor
    information and which callback, whether the broker connection is up, how many
    reconnections were attempted, and the subscribe/unsubscribe calls made to the
    broker. The callback is an abstract handler `H`; delivering a message returns the
    handler and the data it is called with, and the caller runs it. */
module MqttClient {
  import opened Wrappers
  import opened Text
  import opened PyValues
  import Payload
  import opened Records
  import opened Seqs

  const Broker: string := "broker.emqx.io"
  const Port: int := 1883
  const Keepalive: int := 60
  const MaxReconnectAttempts: nat := 5
  const ClientIdPrefix: string := "Equipo3_"

  /** A call made to the broker library. */
  datatype BrokerCall = Subscribe(topic: string) | Unsubscribe(topic: string)

  /** What `_on_disconnect` reports: a clean disconnect, an unexpected one with the
      attempt number still below the maximum, or one that reached the maximum. */
  datatype DisconnectReport = Clean | Retrying(attempt: nat) | GaveUp(attempt: nat)

  /** One subscribe call per topic, in the given order. */
  function Subscriptions(topics: seq<string>): (r: seq<BrokerCall>)
    ensures |r| == |topics|
    ensures forall i :: 0 <= i < |r| ==> r[i] == Subscribe(topics[i])
  {
    if topics == [] then []
    else Subscriptions(topics[..|topics| - 1]) + [Subscribe(topics[|topics| - 1])]
  }

  /** Resubscribing distinct topics subscribes each of them exactly once and nothing else. */
  lemma {:induction false} SubscribedOnce(topics: seq<string>, t: string)
    requires Distinct(topics)
    ensures multiset(Subscriptions(topics))[Subscribe(t)] == if t in topics then 1 else 0
    ensures forall c :: c in Subscriptions(topics) ==> c.Subscribe? && c.topic in topics
  {
    if topics != [] {
      var init := topics[..|topics| - 1];
      var last := topics[|topics| - 1];
      assert Distinct(init);
      SubscribedOnce(init, t);
      assert topics == init + [last];
      assert last !in init;
      assert Subscriptions(topics) == Subscriptions(init) + [Subscribe(last)];
    }
  }

  /** The keys `_on_message` adds to the decoder's dictionary. */
  const ClientKeys: set<string> := {"sensor_code", "sensor_id", "sensor_type", "topic", "raw_payload"}

  /** The decoded reading as `_on_message` passes it on: the decoder's dictionary
      updated with the sensor's code, id and type (or their defaults when the topic has
      no sensor information), the topic and the payload text. */
  function Enriched(r: Payload.Reading, info: Option<SensorInfo>, topic: string, payload: string): (d: Dict)
    ensures d.Keys == Payload.AsDict(r).Keys + ClientKeys
    ensures forall k :: k in Payload.AsDict(r) && k !in ClientKeys ==> d[k] == Payload.AsDict(r)[k]
    ensures d["topic"] == Str(topic) && d["raw_payload"] == Str(payload)
    ensures d["sensor_code"] == Str(if info.Some? then info.value.code else "Unknown")
    ensures d["sensor_id"] == if info.Some? then Int(info.value.id) else NoneValue
    ensures d["sensor_type"] == Str(if info.Some? then info.value.kind else "temperatura")
  {
    Payload.AsDict(r)
      ["sensor_code" := Str(if info.Some? then info.value.code else "Unknown")]
      ["sensor_id" := if info.Some? then Int(info.value.id) else NoneValue]
      ["sensor_type" := Str(if info.Some? then info.value.kind else "temperatura")]
      ["topic" := Str(topic)]
      ["raw_payload" := Str(payload)]
  }

  class MultiSensorClient<H> {
    const clientId: string
    /** The key order of `topic_callbacks` (a Python dict iterates in insertion order). */
    var topicOrder: seq<string>
    var topicCallbacks: map<string, H>
    var activeSensors: map<string, SensorInfo>
    var isConnected: bool
    var reconnectAttempts: nat
    /** Every subscribe and unsubscribe issued so far. */
    var brokerCalls: seq<BrokerCall>

    /** The two dictionaries always have the same topics, and the key order lists each
        registered topic once. */
    ghost predicate Valid()
      reads this
    {
      Distinct(topicOrder) &&
      (forall t :: t in topicOrder <==> t in topicCallbacks) &&
      activeSensors.Keys == topicCallbacks.Keys
    }

    /** `__init__` with the first eight characters of a fresh UUID string. */
    constructor (uniqueId: string)
      ensures Valid()
      ensures clientId == ClientIdPrefix + Prefix(uniqueId, 8)
      ensures topicOrder == [] && topicCallbacks == map[] && activeSensors == map[]
      ensures !isConnected && reconnectAttempts == 0 && brokerCalls == []
    {
      clientId := ClientIdPrefix + Prefix(uniqueId, 8);
      topicOrder := [];
      topicCallbacks := map[];
      activeSensors := map[];
      isConnected := false;
      reconnectAttempts := 0;
      brokerCalls := [];
    }

    /** `add_sensor`: one handler per topic, a later registration replaces the earlier
        one; subscribe only while connected. */
    method AddSensor(sensorId: int, sensorCode: string, sensorType: string, topic: string, callback: H)
      requires Valid()
      modifies this
      ensures Valid()
      ensures activeSensors == old(activeSensors)[topic := SensorInfo(sensorId, sensorCode, sensorType)]
      ensures topicCallbacks == old(topicCallbacks)[topic := callback]
      ensures topicOrder == if topic in old(topicCallbacks) then old(topicOrder) else old(topicOrder) + [topic]
      ensures brokerCalls == old(brokerCalls) + (if old(isConnected) then [Subscribe(topic)] else [])
      ensures isConnected == old(isConnected) && reconnectAttempts == old(reconnectAttempts)
    {
      if topic !in topicCallbacks {
        topicOrder := topicOrder + [topic];
      }
      activeSensors := activeSensors[topic := SensorInfo(sensorId, sensorCode, sensorType)];
      topicCallbacks := topicCallbacks[topic := callback];
      if isConnected {
        brokerCalls := brokerCalls + [Subscribe(topic)];
      }
    }

    /** `remove_sensor`: an unregistered topic changes nothing; a registered one loses
        both entries and is unsubscribed while connected. Because both dictionaries
        always hold the same topics, the second `del` cannot raise. */
    method RemoveSensor(topic: string)
      requires Valid()
      modifies this
      ensures Valid()
      ensures topic !in old(topicCallbacks) ==>
        topicCallbacks == old(topicCallbacks) && activeSensors == old(activeSensors) &&
        topicOrder == old(topicOrder) && brokerCalls == old(brokerCalls)
      ensures topic in old(topicCallbacks) ==>
        topicCallbacks == old(topicCallbacks) - {topic} && activeSensors == old(activeSensors) - {topic} &&
        topicOrder == Without(old(topicOrder), topic) &&
        brokerCalls == old(brokerCalls) + (if old(isConnected) then [Unsubscribe(topic)] else [])
      ensures isConnected == old(isConnected) && reconnectAttempts == old(reconnectAttempts)
    {
      if topic in topicCallbacks {
        topicCallbacks := topicCallbacks - {topic};
        activeSensors := activeSensors - {topic};
        topicOrder := Without(topicOrder, topic);
        if isConnected {
          brokerCalls := brokerCalls + [Unsubscribe(topic)];
        }
      }
    }

    /** `_on_connect`: on success mark connected, reset the attempts and subscribe every
        registered topic in registration order; otherwise mark disconnected. */
    method OnConnect(rc: int)
      requires Valid()
      modifies this
      ensures Valid()
      ensures topicCallbacks == old(topicCallbacks) && activeSensors == old(activeSensors)
      ensures topicOrder == old(topicOrder)
      ensures rc == 0 ==>
        isConnected && reconnectAttempts == 0 && brokerCalls == old(brokerCalls) + Subscriptions(topicOrder)
      ensures rc != 0 ==>
        !isConnected && reconnectAttempts == old(reconnectAttempts) && brokerCalls == old(brokerCalls)
    {
      if rc == 0 {
        isConnected := true;
        reconnectAttempts := 0;
        var topics := topicOrder;
        for i := 0 to |topics|
          invariant topicOrder == topics && topicCallbacks == old(topicCallbacks)
          invariant activeSensors == old(activeSensors) && isConnected && reconnectAttempts == 0
          invariant brokerCalls == old(brokerCalls) + Subscriptions(topics[..i])
        {
          assert topics[..i + 1][..i] == topics[..i];
          brokerCalls := brokerCalls + [Subscribe(topics[i])];
        }
        assert topics[..|topics|] == topics;
      } else {
        isConnected := false;
      }
    }

    /** `_on_disconnect`: always disconnected; an unexpected disconnect (rc other than 0)
        counts one more attempt. Reaching the maximum is only reported. */
    method OnDisconnect(rc: int) returns (report: DisconnectReport)
      requires Valid()
      modifies this
      ensures Valid()
      ensures !isConnected
      ensures topicCallbacks == old(topicCallbacks) && activeSensors == old(activeSensors)
      ensures topicOrder == old(topicOrder) && brokerCalls == old(brokerCalls)
      ensures reconnectAttempts == if rc == 0 then old(reconnectAttempts) else old(reconnectAttempts) + 1
      ensures report == if rc == 0 then Clean
                        else if reconnectAttempts < MaxReconnectAttempts then Retrying(reconnectAttempts)
                        else GaveUp(reconnectAttempts)
    {
      isConnected := false;
      if rc != 0 {
        reconnectAttempts := reconnectAttempts + 1;
        if reconnectAttempts < MaxReconnectAttempts {
          report := Retrying(reconnectAttempts);
        } else {
          report := GaveUp(reconnectAttempts);
        }
      } else {
        report := Clean;
      }
    }

    /** `_on_message`: decode the payload; when it decodes and the topic is registered,
        return the topic's handler with the enriched data, for the caller to run once.
        Nothing in the client changes. */
    method OnMessage(topic: string, payload: string, now: int) returns (delivery: Option<(H, Dict)>)
      requires Valid()
      ensures delivery.Some? <==> StartsWith(payload, Payload.Marker) && topic in topicCallbacks
      ensures delivery.Some? ==>
        delivery.value.0 == topicCallbacks[topic] &&
        delivery.value.1 == Enriched(Payload.Decode(payload, now).value, Some(activeSensors[topic]), topic, payload)
    {
      var decoded := Payload.ParsePayload(payload, now);
      if decoded.Some? && topic in topicCallbacks {
        var info := if topic in activeSensors then Some(activeSensors[topic]) else None;
        delivery := Some((topicCallbacks[topic], Enriched(decoded.value, info, topic, payload)));
      } else {
        delivery := None;
      }
    }
  }
}
