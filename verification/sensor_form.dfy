/** The sensor form of `app/states/sensor_state.py`: the form fields with their defaults,
    the unit a chosen type implies, the modal that resets the form when it closes, the
    parcel id read from the page parameters, the client registration of a new sensor
    and the reading its callback stores. */
module SensorForm {
  import opened Wrappers
  import opened Text
  import opened PyValues
  import opened Records
  import MqttClient

  const DefaultType: string := "temperature"
  const DefaultUnit: string := "°C"
  const DefaultLow: real := 0.0
  const DefaultHigh: real := 100.0
  const DefaultTopic: string := "Awi7LJfyyn6LPjg/15046220"

  /** The metric a sensor registered from the form reads (`maiota_type_map.get(type,
      "temperatura")`). */
  function FormMetric(kind: string): (m: string)
    ensures m in TypeMap.Values || m == "temperatura"
    ensures kind in TypeMap ==> m == TypeMap[kind]
    ensures kind !in TypeMap ==> m == "temperatura"
  {
    MapType(kind, "temperatura")
  }

  // ---------------------------------------------------------------------------------
  // Unit of a type.

  /** The unit `set_sensor_type` sets, tested in order: exactly "temperature", then any
      type containing "humidity", then any containing "luminosity", then exactly "co2",
      then "cov" or "nox"; any other type leaves `current` in place. */
  function UnitFor(kind: string, current: string): (u: string)
    ensures kind == "temperature" ==> u == "°C"
    ensures kind != "temperature" && Contains(kind, "humidity") ==> u == "%"
    ensures kind != "temperature" && !Contains(kind, "humidity") && Contains(kind, "luminosity") ==> u == "lux"
    ensures kind == "co2" ==> u == "ppm"
    ensures kind == "cov" || kind == "nox" ==> u == "Index"
    ensures (kind != "temperature" && !Contains(kind, "humidity") && !Contains(kind, "luminosity") &&
             kind != "co2" && kind != "cov" && kind != "nox") ==> u == current
  {
    if kind == "temperature" then "°C"
    else if Contains(kind, "humidity") then "%"
    else if Contains(kind, "luminosity") then "lux"
    else if kind == "co2" then "ppm"
    else if kind == "cov" || kind == "nox" then "Index"
    else current
  }

  /** A prefix of `s` that is a sub-string of `t` at offset `k` makes `s` occur in `t`. */
  lemma ContainsAt(t: string, sub: string, k: nat)
    requires k + |sub| <= |t| && t[k..k + |sub|] == sub
    ensures Contains(t, sub)
  {
    ContainsFromBelow(t, sub, 0, k);
  }

  lemma {:induction false} ContainsFromBelow(t: string, sub: string, from: nat, k: nat)
    requires from <= k && k + |sub| <= |t| && t[k..k + |sub|] == sub
    ensures ContainsFrom(t, sub, from)
    decreases k - from
  {
    if from < k {
      ContainsFromBelow(t, sub, from + 1, k);
    }
  }

  /** A string in which the first character of `sub` does not occur from `from` on
      does not contain `sub` from there. */
  lemma {:induction false} FirstCharAbsent(t: string, sub: string, from: nat)
    requires |sub| > 0
    requires forall k :: from <= k < |t| ==> t[k] != sub[0]
    ensures !ContainsFrom(t, sub, from)
    decreases |t| - from
  {
    if from + |sub| <= |t| {
      assert t[from..from + |sub|][0] == t[from];
      FirstCharAbsent(t, sub, from + 1);
    }
  }

  /** Every type the form offers sets a unit of its own, whatever the unit was before;
      the two humidity types get "%" through the substring test. */
  lemma OfferedTypesSetUnit(current: string)
    ensures UnitFor("temperature", current) == "°C"
    ensures UnitFor("humidity_ambient", current) == "%"
    ensures UnitFor("humidity_soil", current) == "%"
    ensures UnitFor("luminosity", current) == "lux"
    ensures UnitFor("co2", current) == "ppm"
    ensures UnitFor("cov", current) == "Index" && UnitFor("nox", current) == "Index"
  {
    ContainsAt("humidity_ambient", "humidity", 0);
    ContainsAt("humidity_soil", "humidity", 0);
    ContainsAt("luminosity", "luminosity", 0);
    FirstCharAbsent("luminosity", "humidity", 0);
  }

  /** The order of the tests matters: a type naming both a humidity and a luminosity gets
      the humidity unit. */
  lemma HumidityTestedFirst(current: string)
    ensures UnitFor("luminosity_humidity", current) == "%"
  {
    ContainsAt("luminosity_humidity", "humidity", 11);
  }

  // ---------------------------------------------------------------------------------
  // The parcel id of the page.

  /** Python's `int(s)` on a string: an optional sign and then ASCII digits; anything
      else raises `ValueError`, shown as `None`. */
  function ParseInt(s: string): (r: Option<int>)
    ensures r.Some? <==> (s != [] && AllDigits(s)) ||
                         (|s| > 1 && (s[0] == '+' || s[0] == '-') && AllDigits(s[1..]))
    ensures s != [] && AllDigits(s) ==> r == Some(DigitsValue(s))
    ensures |s| > 1 && s[0] == '+' && AllDigits(s[1..]) ==> r == Some(DigitsValue(s[1..]))
    ensures |s| > 1 && s[0] == '-' && AllDigits(s[1..]) ==> r.Some? && r.value == -(DigitsValue(s[1..]) as int)
  {
    if s == [] then None
    else if AllDigits(s) then Some(DigitsValue(s))
    else if (s[0] == '+' || s[0] == '-') && |s| > 1 && AllDigits(s[1..]) then
      var magnitude: int := DigitsValue(s[1..]);
      Some(if s[0] == '-' then -magnitude else magnitude)
    else None
  }

  /** `str(n)` for any integer. */
  function IntToString(n: int): (s: string)
    ensures s != []
  {
    if n < 0 then "-" + NatToString(-n) else NatToString(n)
  }

  /** `int(str(n)) == n`. */
  lemma ParseIntRoundTrip(n: int)
    ensures ParseInt(IntToString(n)) == Some(n)
  {
    if n < 0 {
      var s := IntToString(n);
      assert s[1..] == NatToString(-n);
      assert !IsDigit(s[0]);
    }
  }

  /** A text with a character that is neither a digit nor a leading sign does not
      parse. */
  lemma ParseIntRejects(s: string, i: nat)
    requires i < |s| && !IsDigit(s[i]) && (i > 0 || (s[0] != '+' && s[0] != '-') || |s| == 1)
    ensures ParseInt(s).None?
  {
    if i > 0 {
      assert !AllDigits(s) && !AllDigits(s[1..]) by {
        assert s[1..][i - 1] == s[i];
      }
    }
  }

  /** `parcel_id`: the page parameter `id` parsed as an integer, 0 when it is missing,
      empty or not an integer. */
  function ParcelId(params: map<string, string>): (id: int)
    ensures "id" !in params || params["id"] == [] ==> id == 0
    ensures "id" in params && ParseInt(params["id"]).Some? ==> id == ParseInt(params["id"]).value
    ensures "id" in params && ParseInt(params["id"]).None? ==> id == 0
  {
    var pid := if "id" in params then params["id"] else "";
    if pid == [] then 0
    else match ParseInt(pid)
      case None => 0
      case Some(n) => n
  }

  /** A page opened for parcel `n` shows parcel `n`. */
  lemma ParcelIdOfLink(n: int)
    ensures ParcelId(map["id" := IntToString(n)]) == n
  {
    ParseIntRoundTrip(n);
  }

  // ---------------------------------------------------------------------------------
  // Saving a reading from the form's callback.

  /** `_save_sensor_reading`: the reading built as by the direct writer, with the local
      clock, stored when it can be built; no alert is written. */
  function SaveSensorReading(db: Db, sensorId: int, metric: string, data: Dict, localNow: int): (r: Db)
    ensures r.sensors == db.sensors && r.alerts == db.alerts
    ensures ReadingOf(sensorId, metric, data, localNow).None? ==> r == db
    ensures ReadingOf(sensorId, metric, data, localNow).Some? ==>
      r.readings == db.readings + [ReadingOf(sensorId, metric, data, localNow).value]
  {
    match ReadingOf(sensorId, metric, data, localNow)
    case None => db
    case Some(d) => db.(readings := db.readings + [d])
  }

  class SensorState {
    var showAddSensorModal: bool
    var newSensorCode: string
    var newSensorType: string
    var newSensorUnit: string
    var newSensorDesc: string
    var newSensorLow: real
    var newSensorHigh: real
    var newSensorMqttTopic: string

    /** Every form field holds its default. */
    predicate FormIsDefault()
      reads this
    {
      newSensorCode == "" && newSensorType == DefaultType && newSensorUnit == DefaultUnit &&
      newSensorDesc == "" && newSensorLow == DefaultLow && newSensorHigh == DefaultHigh &&
      newSensorMqttTopic == DefaultTopic
    }

    /** The initial state: the modal closed and the form at its defaults. */
    constructor ()
      ensures FormIsDefault() && !showAddSensorModal
    {
      showAddSensorModal := false;
      newSensorCode, newSensorType, newSensorUnit, newSensorDesc := "", DefaultType, DefaultUnit, "";
      newSensorLow, newSensorHigh := DefaultLow, DefaultHigh;
      newSensorMqttTopic := DefaultTopic;
    }

    /** `_reset_form`: every form field back to its default; the modal is untouched. */
    method ResetForm()
      modifies this
      ensures FormIsDefault()
      ensures showAddSensorModal == old(showAddSensorModal)
    {
      newSensorCode := "";
      newSensorType := DefaultType;
      newSensorUnit := DefaultUnit;
      newSensorDesc := "";
      newSensorLow := DefaultLow;
      newSensorHigh := DefaultHigh;
      newSensorMqttTopic := DefaultTopic;
    }

    /** `toggle_add_modal`: opening keeps the form as it is; closing resets it. */
    method ToggleAddModal()
      modifies this
      ensures showAddSensorModal == !old(showAddSensorModal)
      ensures !showAddSensorModal ==> FormIsDefault()
      ensures showAddSensorModal ==>
        newSensorCode == old(newSensorCode) && newSensorType == old(newSensorType) &&
        newSensorUnit == old(newSensorUnit) && newSensorDesc == old(newSensorDesc) &&
        newSensorLow == old(newSensorLow) && newSensorHigh == old(newSensorHigh) &&
        newSensorMqttTopic == old(newSensorMqttTopic)
    {
      showAddSensorModal := !showAddSensorModal;
      if !showAddSensorModal {
        ResetForm();
      }
    }

    /** `set_sensor_type`: store the type and the unit it implies. */
    method SetSensorType(val: string)
      modifies this
      ensures newSensorType == val && newSensorUnit == UnitFor(val, old(newSensorUnit))
      ensures showAddSensorModal == old(showAddSensorModal)
      ensures newSensorCode == old(newSensorCode) && newSensorDesc == old(newSensorDesc)
      ensures newSensorLow == old(newSensorLow) && newSensorHigh == old(newSensorHigh)
      ensures newSensorMqttTopic == old(newSensorMqttTopic)
    {
      newSensorType := val;
      if val == "temperature" {
        newSensorUnit := "°C";
      } else if Contains(val, "humidity") {
        newSensorUnit := "%";
      } else if Contains(val, "luminosity") {
        newSensorUnit := "lux";
      } else if val == "co2" {
        newSensorUnit := "ppm";
      } else if val == "cov" || val == "nox" {
        newSensorUnit := "Index";
      }
    }
  }

  /** `_register_sensor_mqtt`: register the new sensor's topic with the metric its type
      maps to and a callback that saves its readings. The registration replaces
      whatever handler the topic had, a topic fan-out included. */
  method RegisterSensorMqtt(client: MqttClient.MultiSensorClient<Handler>, sensor: SensorRow)
    requires client.Valid()
    modifies client
    ensures client.Valid()
    ensures client.topicCallbacks == old(client.topicCallbacks)[sensor.mqttTopic := SingleSensor(sensor.id, FormMetric(sensor.kind))]
    ensures client.activeSensors ==
      old(client.activeSensors)[sensor.mqttTopic := SensorInfo(sensor.id, sensor.idCode, FormMetric(sensor.kind))]
    ensures client.topicOrder ==
      if sensor.mqttTopic in old(client.topicCallbacks) then old(client.topicOrder) else old(client.topicOrder) + [sensor.mqttTopic]
    ensures client.brokerCalls ==
      old(client.brokerCalls) + (if old(client.isConnected) then [MqttClient.Subscribe(sensor.mqttTopic)] else [])
    ensures client.isConnected == old(client.isConnected) && client.reconnectAttempts == old(client.reconnectAttempts)
  {
    var metric := MapType(sensor.kind, "temperatura");
    client.AddSensor(sensor.id, sensor.idCode, metric, sensor.mqttTopic, SingleSensor(sensor.id, metric));
  }
}
