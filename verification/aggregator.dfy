/** `SensorDataAggregator` (`app/services/data_aggregator.py`): readings are buffered per
    sensor and per type, and each flush reduces every non-empty buffer to its mean,
    minimum, maximum and sample count, stores one averaged reading per (sensor, type) and
    checks the mean against the sensor's thresholds. Every method is one atomic step (the
    source holds a lock for this); the timer thread is not modelled. */
module Aggregator {
  import opened Wrappers
  import opened PyValues
  import opened Records
  import opened Seqs

  // ---------------------------------------------------------------------------------
  // Statistics of one buffer: `sum`, `len`, `min` and `max` of Python.

  function Sum(s: seq<real>): real {
    if s == [] then 0.0 else Sum(s[..|s| - 1]) + s[|s| - 1]
  }

  /** The arithmetic mean `sum(values) / len(values)`. */
  function Mean(s: seq<real>): real
    requires s != []
  {
    Sum(s) / (|s| as real)
  }

  /** `min(values)`: an element no larger than any other. */
  function Min(s: seq<real>): (m: real)
    requires s != []
    ensures m in s && forall x :: x in s ==> m <= x
  {
    if |s| == 1 then s[0]
    else
      var m := Min(s[..|s| - 1]);
      assert forall x :: x in s ==> x in s[..|s| - 1] || x == s[|s| - 1];
      if s[|s| - 1] < m then s[|s| - 1] else m
  }

  /** `max(values)`: an element no smaller than any other. */
  function Max(s: seq<real>): (m: real)
    requires s != []
    ensures m in s && forall x :: x in s ==> x <= m
  {
    if |s| == 1 then s[0]
    else
      var m := Max(s[..|s| - 1]);
      assert forall x :: x in s ==> x in s[..|s| - 1] || x == s[|s| - 1];
      if s[|s| - 1] > m then s[|s| - 1] else m
  }

  /** A sum of values between `lo` and `hi` lies between `|s| * lo` and `|s| * hi`. */
  lemma {:induction false} SumBounds(s: seq<real>, lo: real, hi: real)
    requires forall x :: x in s ==> lo <= x <= hi
    ensures (|s| as real) * lo <= Sum(s) <= (|s| as real) * hi
  {
    if s != [] {
      var init := s[..|s| - 1];
      assert forall x :: x in init ==> x in s;
      SumBounds(init, lo, hi);
      assert s[|s| - 1] in s;
    }
  }

  /** The stored average lies between the stored minimum and maximum. */
  lemma MeanBetween(s: seq<real>)
    requires s != []
    ensures Min(s) <= Mean(s) <= Max(s)
  {
    SumBounds(s, Min(s), Max(s));
    QuotientBounds(Sum(s), |s| as real, Min(s), Max(s));
  }

  /** Dividing by a positive count keeps a bound: from `n * lo <= a <= n * hi` follows
      `lo <= a / n <= hi`. */
  lemma QuotientBounds(a: real, n: real, lo: real, hi: real)
    requires n > 0.0 && n * lo <= a <= n * hi
    ensures lo <= a / n <= hi
  {
    var q := a / n;
    assert q * n == a;
  }

  /** A buffer whose samples are all equal averages to that value. */
  lemma {:induction false} ConstantMean(s: seq<real>, v: real)
    requires s != [] && forall x :: x in s ==> x == v
    ensures Mean(s) == v && Min(s) == v && Max(s) == v
  {
    SumBounds(s, v, v);
  }

  const Samples10To30: seq<real> := [10.0, 20.0, 30.0]

  /** Ten, twenty and thirty average to twenty, with minimum ten and maximum thirty. */
  lemma ExampleStatistics()
    ensures Mean(Samples10To30) == 20.0
    ensures Min(Samples10To30) == 10.0 && Max(Samples10To30) == 30.0
  {
    assert Samples10To30[..2] == [10.0, 20.0];
    assert [10.0, 20.0][..1] == [10.0];
    assert Sum(Samples10To30) == 60.0;
  }

  // ---------------------------------------------------------------------------------
  // What a flush writes, as functions of the buffers it took.

  /** `buffer[sensor_id][sensor_type]`, empty when either key is absent. */
  function SamplesOf(buffer: map<int, map<string, seq<real>>>, sensorId: int, sensorType: string): seq<real> {
    if sensorId in buffer && sensorType in buffer[sensorId] then buffer[sensorId][sensorType] else []
  }

  /** `buffer[sensor_id]`, empty when absent. */
  function SlotOf(buffer: map<int, map<string, seq<real>>>, sensorId: int): map<string, seq<real>> {
    if sensorId in buffer then buffer[sensorId] else map[]
  }

  /** The `last_sample` of a summary: the last dictionary buffered for the sensor, if any. */
  function LastSample(raw: map<int, seq<Dict>>, sensorId: int): (r: Option<Dict>)
    ensures r.Some? <==> sensorId in raw && raw[sensorId] != []
    ensures r.Some? ==> r.value == raw[sensorId][|raw[sensorId]| - 1]
  {
    if sensorId in raw && raw[sensorId] != [] then Some(raw[sensorId][|raw[sensorId]| - 1]) else None
  }

  /** The averaged reading stored for one non-empty buffer. */
  function AveragedReading(intervalSeconds: int, sensorId: int, sensorType: string, values: seq<real>,
                           last: Option<Dict>, now: int): (d: SensorData)
    requires values != []
    ensures d.sensorId == sensorId && d.timestamp == now && d.value == Mean(values)
    ensures d.raw.Aggregated? && d.raw.s.samplesCount == |values| && d.raw.s.avg == d.value
    ensures d.raw.s.min <= d.raw.s.avg <= d.raw.s.max
    ensures d.raw.s.min in values && d.raw.s.max in values
    ensures d.raw.s.sensorType == sensorType && d.raw.s.lastSample == last
  {
    MeanBetween(values);
    SensorData(sensorId, now, Mean(values),
      Aggregated(Summary(intervalSeconds / 60, |values|, Min(values), Max(values), Mean(values),
                         sensorType, now, last)))
  }

  /** One (sensor, type) of a flush: an empty buffer is skipped; otherwise its averaged
      reading is stored and the mean is checked against the thresholds. */
  function SaveOne(db: Db, intervalSeconds: int, sensorId: int, sensorType: string, values: seq<real>,
                   last: Option<Dict>, now: int): (r: Db)
    ensures r.sensors == db.sensors
    ensures values == [] ==> r == db
    ensures values != [] ==>
      r.readings == db.readings + [AveragedReading(intervalSeconds, sensorId, sensorType, values, last, now)] &&
      r.alerts == ThresholdAlert(db.(readings := r.readings), sensorId, sensorType, Mean(values), true, now).alerts
  {
    if values == [] then db
    else
      var stored := db.(readings := db.readings + [AveragedReading(intervalSeconds, sensorId, sensorType, values, last, now)]);
      ThresholdAlert(stored, sensorId, sensorType, Mean(values), true, now)
  }

  /** Flushing three temperature samples 10, 20 and 30 of a sensor the table does not
      know stores one reading of 20 whose summary counts 3 samples between 10 and 30
      over a five-minute interval, and raises no alert. */
  lemma ExampleFlush(db: Db, now: int)
    requires FindSensor(db.sensors, 1).None?
    ensures SaveAll(db, 300, [1], map[1 := ["temperatura"]], map[1 := map["temperatura" := Samples10To30]], map[], now)
         == db.(readings := db.readings + [SensorData(1, now, 20.0,
              Aggregated(Summary(5, 3, 10.0, 30.0, 20.0, "temperatura", now, None)))])
  {
    ExampleStatistics();
    var slot := map["temperatura" := Samples10To30];
    var types := map[1 := ["temperatura"]];
    var buffer := map[1 := slot];
    var d := AveragedReading(300, 1, "temperatura", Samples10To30, None, now);
    assert d == SensorData(1, now, 20.0, Aggregated(Summary(5, 3, 10.0, 30.0, 20.0, "temperatura", now, None)));
    assert ["temperatura"][..0] == [];
    assert SaveTypes(db, 300, 1, ["temperatura"], slot, None, now) == db.(readings := db.readings + [d]);
    assert [1][..0] == [];
    assert SaveAll(db, 300, [1], types, buffer, map[], now) == SaveTypes(db, 300, 1, ["temperatura"], slot, None, now);
  }

  /** The types of one sensor, in the order of its buffer. */
  function SaveTypes(db: Db, intervalSeconds: int, sensorId: int, types: seq<string>,
                     slot: map<string, seq<real>>, last: Option<Dict>, now: int): (r: Db)
  {
    if types == [] then db
    else
      var t := types[|types| - 1];
      SaveOne(SaveTypes(db, intervalSeconds, sensorId, types[..|types| - 1], slot, last, now),
              intervalSeconds, sensorId, t, if t in slot then slot[t] else [], last, now)
  }

  /** The whole flush: every sensor in buffer order, each with its types. */
  function SaveAll(db: Db, intervalSeconds: int, sensors: seq<int>, typeOrder: map<int, seq<string>>,
                   buffer: map<int, map<string, seq<real>>>, raw: map<int, seq<Dict>>, now: int): (r: Db)
  {
    if sensors == [] then db
    else
      var sid := sensors[|sensors| - 1];
      SaveTypes(SaveAll(db, intervalSeconds, sensors[..|sensors| - 1], typeOrder, buffer, raw, now),
                intervalSeconds, sid, if sid in typeOrder then typeOrder[sid] else [],
                SlotOf(buffer, sid), LastSample(raw, sid), now)
  }

  /** How many buffers of one sensor are non-empty. */
  function FilledTypes(types: seq<string>, slot: map<string, seq<real>>): nat {
    if types == [] then 0
    else
      var t := types[|types| - 1];
      FilledTypes(types[..|types| - 1], slot) + (if t in slot && slot[t] != [] then 1 else 0)
  }

  /** How many buffers of the whole snapshot are non-empty. */
  function Filled(sensors: seq<int>, typeOrder: map<int, seq<string>>, buffer: map<int, map<string, seq<real>>>): nat {
    if sensors == [] then 0
    else
      var sid := sensors[|sensors| - 1];
      Filled(sensors[..|sensors| - 1], typeOrder, buffer)
        + FilledTypes(if sid in typeOrder then typeOrder[sid] else [], SlotOf(buffer, sid))
  }

  /** A sensor's part of a flush keeps the sensor table, only appends readings and
      alerts, and stores exactly one reading per non-empty buffer. */
  lemma {:induction false} SaveTypesAppends(db: Db, intervalSeconds: int, sensorId: int, types: seq<string>,
                                            slot: map<string, seq<real>>, last: Option<Dict>, now: int)
    ensures var r := SaveTypes(db, intervalSeconds, sensorId, types, slot, last, now);
      r.sensors == db.sensors &&
      |r.readings| == |db.readings| + FilledTypes(types, slot) && r.readings[..|db.readings|] == db.readings &&
      |db.alerts| <= |r.alerts| && r.alerts[..|db.alerts|] == db.alerts
  {
    if types != [] {
      var t := types[|types| - 1];
      var init := types[..|types| - 1];
      SaveTypesAppends(db, intervalSeconds, sensorId, init, slot, last, now);
      var mid := SaveTypes(db, intervalSeconds, sensorId, init, slot, last, now);
      var values := if t in slot then slot[t] else [];
      if values != [] {
        var stored := mid.(readings := mid.readings + [AveragedReading(intervalSeconds, sensorId, t, values, last, now)]);
        var r := ThresholdAlert(stored, sensorId, t, Mean(values), true, now);
        assert r.readings[..|db.readings|] == mid.readings[..|db.readings|];
        assert r.alerts[..|mid.alerts|] == mid.alerts;
      }
    }
  }

  /** The whole flush keeps the sensor table, keeps every earlier reading and alert,
      and stores exactly one averaged reading per non-empty buffer of the snapshot. */
  lemma {:induction false} SaveAllAppends(db: Db, intervalSeconds: int, sensors: seq<int>, typeOrder: map<int, seq<string>>,
                                          buffer: map<int, map<string, seq<real>>>, raw: map<int, seq<Dict>>, now: int)
    ensures var r := SaveAll(db, intervalSeconds, sensors, typeOrder, buffer, raw, now);
      r.sensors == db.sensors &&
      |r.readings| == |db.readings| + Filled(sensors, typeOrder, buffer) && r.readings[..|db.readings|] == db.readings &&
      |db.alerts| <= |r.alerts| && r.alerts[..|db.alerts|] == db.alerts
  {
    if sensors != [] {
      var sid := sensors[|sensors| - 1];
      var init := sensors[..|sensors| - 1];
      SaveAllAppends(db, intervalSeconds, init, typeOrder, buffer, raw, now);
      var mid := SaveAll(db, intervalSeconds, init, typeOrder, buffer, raw, now);
      SaveTypesAppends(mid, intervalSeconds, sid, if sid in typeOrder then typeOrder[sid] else [],
                       SlotOf(buffer, sid), LastSample(raw, sid), now);
    }
  }

  /** Every non-empty buffer of a sensor ends up as its averaged reading. */
  lemma {:induction false} SaveTypesStores(db: Db, intervalSeconds: int, sensorId: int, types: seq<string>,
                                           slot: map<string, seq<real>>, last: Option<Dict>, now: int, t: string)
    requires t in types && t in slot && slot[t] != []
    ensures AveragedReading(intervalSeconds, sensorId, t, slot[t], last, now)
            in SaveTypes(db, intervalSeconds, sensorId, types, slot, last, now).readings
  {
    var u := types[|types| - 1];
    var init := types[..|types| - 1];
    var mid := SaveTypes(db, intervalSeconds, sensorId, init, slot, last, now);
    var d := AveragedReading(intervalSeconds, sensorId, t, slot[t], last, now);
    if u == t {
      assert SaveTypes(db, intervalSeconds, sensorId, types, slot, last, now).readings == mid.readings + [d];
    } else {
      assert t in init by { assert types == init + [u]; }
      SaveTypesStores(db, intervalSeconds, sensorId, init, slot, last, now, t);
      var values := if u in slot then slot[u] else [];
      if values != [] {
        var r := SaveTypes(db, intervalSeconds, sensorId, types, slot, last, now);
        assert r.readings == mid.readings + [r.readings[|mid.readings|]];
      }
    }
  }

  /** No non-empty buffer is lost: each (sensor, type) listed in the key order with
      samples is stored as its averaged reading, with the sensor's last raw sample. */
  lemma {:induction false} SaveAllStores(db: Db, intervalSeconds: int, sensors: seq<int>, typeOrder: map<int, seq<string>>,
                                         buffer: map<int, map<string, seq<real>>>, raw: map<int, seq<Dict>>, now: int,
                                         sid: int, t: string)
    requires sid in sensors && sid in typeOrder && t in typeOrder[sid] && SamplesOf(buffer, sid, t) != []
    ensures AveragedReading(intervalSeconds, sid, t, SamplesOf(buffer, sid, t), LastSample(raw, sid), now)
            in SaveAll(db, intervalSeconds, sensors, typeOrder, buffer, raw, now).readings
  {
    var u := sensors[|sensors| - 1];
    var init := sensors[..|sensors| - 1];
    var mid := SaveAll(db, intervalSeconds, init, typeOrder, buffer, raw, now);
    var d := AveragedReading(intervalSeconds, sid, t, SamplesOf(buffer, sid, t), LastSample(raw, sid), now);
    var ts := if u in typeOrder then typeOrder[u] else [];
    if u == sid {
      SaveTypesStores(mid, intervalSeconds, sid, ts, SlotOf(buffer, sid), LastSample(raw, sid), now, t);
    } else {
      assert sid in init by { assert sensors == init + [u]; }
      SaveAllStores(db, intervalSeconds, init, typeOrder, buffer, raw, now, sid, t);
      SaveTypesAppends(mid, intervalSeconds, u, ts, SlotOf(buffer, u), LastSample(raw, u), now);
      var r := SaveAll(db, intervalSeconds, sensors, typeOrder, buffer, raw, now);
      assert d in r.readings[..|mid.readings|];
    }
  }

  /** The key orders list each key of the buffers once, and only a sensor with a
      buffer slot has raw data. */
  ghost predicate Consistent(buffer: map<int, map<string, seq<real>>>, raw: map<int, seq<Dict>>,
                             sensorOrder: seq<int>, typeOrder: map<int, seq<string>>)
  {
    Distinct(sensorOrder) &&
    (forall s :: s in sensorOrder <==> s in buffer) &&
    typeOrder.Keys == buffer.Keys &&
    (forall s :: s in typeOrder ==> Distinct(typeOrder[s])) &&
    (forall s, t :: s in typeOrder && s in buffer ==> (t in typeOrder[s] <==> t in buffer[s])) &&
    raw.Keys <= buffer.Keys
  }

  /** Creating (or extending) the slot of one (sensor, type), as `add_reading` does,
      keeps the key orders in step with the buffers. */
  lemma AddKeepsConsistent(buffer: map<int, map<string, seq<real>>>, raw: map<int, seq<Dict>>,
                           sensorOrder: seq<int>, typeOrder: map<int, seq<string>>,
                           sensorId: int, sensorType: string, samples: seq<real>, newRaw: map<int, seq<Dict>>)
    requires Consistent(buffer, raw, sensorOrder, typeOrder)
    requires newRaw.Keys <= raw.Keys + {sensorId}
    ensures Consistent(
      buffer[sensorId := SlotOf(buffer, sensorId)[sensorType := samples]], newRaw,
      if sensorId in buffer then sensorOrder else sensorOrder + [sensorId],
      typeOrder[sensorId := (if sensorId in typeOrder then typeOrder[sensorId] else [])
                + (if sensorType in SlotOf(buffer, sensorId) then [] else [sensorType])])
  {
    var types := (if sensorId in typeOrder then typeOrder[sensorId] else [])
                + (if sensorType in SlotOf(buffer, sensorId) then [] else [sensorType]);
    assert Distinct(types);
  }

  class SensorDataAggregator {
    const intervalSeconds: int
    /** `buffer[sensor_id][sensor_type]`: the samples buffered since the last flush. */
    var buffer: map<int, map<string, seq<real>>>
    /** `raw_data_buffer[sensor_id]`: the dictionaries buffered since the last flush. */
    var rawDataBuffer: map<int, seq<Dict>>
    /** The key order of `buffer` (insertion order of a Python dict). */
    var sensorOrder: seq<int>
    /** The key order of each `buffer[sensor_id]`. */
    var typeOrder: map<int, seq<string>>
    var running: bool

    /** The key orders list each key of the buffers once, and only a sensor with a
        buffer slot has raw data. */
    ghost predicate Valid()
      reads this
    {
      Consistent(buffer, rawDataBuffer, sensorOrder, typeOrder)
    }

    /** `__init__`: the interval in seconds, empty buffers, not running. */
    constructor (intervalMinutes: int)
      ensures Valid()
      ensures intervalSeconds == intervalMinutes * 60
      ensures buffer == map[] && rawDataBuffer == map[] && sensorOrder == [] && typeOrder == map[]
      ensures !running
    {
      intervalSeconds := intervalMinutes * 60;
      buffer := map[];
      rawDataBuffer := map[];
      sensorOrder := [];
      typeOrder := map[];
      running := false;
    }

    /** `add_reading`: `data.get(sensor_type, 0.0)` converted with `float` is appended to
        `buffer[sensor_id][sensor_type]` and `data` to `raw_data_buffer[sensor_id]`.
        The nested entries are created before `float` runs, so when it raises (`ok` is
        false) the slot exists with nothing appended, and the raw data is not kept. */
    method AddReading(sensorId: int, sensorType: string, data: Dict) returns (ok: bool)
      requires Valid()
      modifies this
      ensures Valid()
      ensures ok <==> MetricValue(data, sensorType).Some?
      ensures buffer == old(buffer)[sensorId := SlotOf(old(buffer), sensorId)[sensorType :=
                if ok then SamplesOf(old(buffer), sensorId, sensorType) + [MetricValue(data, sensorType).value]
                else SamplesOf(old(buffer), sensorId, sensorType)]]
      ensures rawDataBuffer == if ok then old(rawDataBuffer)[sensorId := (if sensorId in old(rawDataBuffer)
                                 then old(rawDataBuffer)[sensorId] else []) + [data]]
                               else old(rawDataBuffer)
      ensures sensorOrder == if sensorId in old(buffer) then old(sensorOrder) else old(sensorOrder) + [sensorId]
      ensures typeOrder == old(typeOrder)[sensorId := (if sensorId in old(typeOrder) then old(typeOrder)[sensorId] else [])
                + (if sensorType in SlotOf(old(buffer), sensorId) then [] else [sensorType])]
      ensures running == old(running)
    {
      var slot := SlotOf(buffer, sensorId);
      var types := (if sensorId in typeOrder then typeOrder[sensorId] else [])
                   + (if sensorType in slot then [] else [sensorType]);
      var samples := SamplesOf(buffer, sensorId, sensorType);
      var value := MetricValue(data, sensorType);
      var newRaw := rawDataBuffer;
      if value.Some? {
        samples := samples + [value.value];
        newRaw := rawDataBuffer[sensorId := (if sensorId in rawDataBuffer then rawDataBuffer[sensorId] else []) + [data]];
      }
      AddKeepsConsistent(buffer, rawDataBuffer, sensorOrder, typeOrder, sensorId, sensorType, samples, newRaw);
      if sensorId !in buffer {
        sensorOrder := sensorOrder + [sensorId];
      }
      typeOrder := typeOrder[sensorId := types];
      buffer := buffer[sensorId := slot[sensorType := samples]];
      rawDataBuffer := newRaw;
      ok := value.Some?;
    }

    /** `_calculate_and_save_averages`: with nothing buffered, nothing happens.
        Otherwise the buffers are taken and cleared, and each non-empty buffer, in key
        order, is stored as its averaged reading and checked against the thresholds. */
    method CalculateAndSaveAverages(db: Db, now: int) returns (r: Db)
      requires Valid()
      modifies this
      ensures Valid()
      ensures old(buffer) == map[] ==>
        r == db && buffer == old(buffer) && rawDataBuffer == old(rawDataBuffer) &&
        sensorOrder == old(sensorOrder) && typeOrder == old(typeOrder)
      ensures old(buffer) != map[] ==>
        buffer == map[] && rawDataBuffer == map[] && sensorOrder == [] && typeOrder == map[] &&
        r == SaveAll(db, intervalSeconds, old(sensorOrder), old(typeOrder), old(buffer), old(rawDataBuffer), now)
      ensures running == old(running)
    {
      if buffer == map[] {
        return db;
      }
      var snapshot, rawSnapshot, sensors, types := buffer, rawDataBuffer, sensorOrder, typeOrder;
      buffer, rawDataBuffer, sensorOrder, typeOrder := map[], map[], [], map[];
      r := db;
      for i := 0 to |sensors|
        invariant buffer == map[] && rawDataBuffer == map[] && sensorOrder == [] && typeOrder == map[]
        invariant running == old(running)
        invariant r == SaveAll(db, intervalSeconds, sensors[..i], types, snapshot, rawSnapshot, now)
      {
        var sid := sensors[i];
        var order := if sid in types then types[sid] else [];
        var slot := SlotOf(snapshot, sid);
        var last := LastSample(rawSnapshot, sid);
        r := SaveSensor(r, sid, order, slot, last, now);
        assert sensors[..i + 1][..i] == sensors[..i];
      }
      assert sensors[..|sensors|] == sensors;
    }

    /** The inner loop of a flush: one sensor's buffers in key order, each non-empty one
        stored as its averaged reading and checked against the thresholds. */
    method SaveSensor(db: Db, sid: int, order: seq<string>, slot: map<string, seq<real>>,
                      last: Option<Dict>, now: int) returns (r: Db)
      ensures r == SaveTypes(db, intervalSeconds, sid, order, slot, last, now)
    {
      r := db;
      for j := 0 to |order|
        invariant r == SaveTypes(db, intervalSeconds, sid, order[..j], slot, last, now)
      {
        var t := order[j];
        var values := if t in slot then slot[t] else [];
        assert order[..j + 1][..j] == order[..j];
        if values != [] {
          var avg := Mean(values);
          r := r.(readings := r.readings + [AveragedReading(intervalSeconds, sid, t, values, last, now)]);
          r := ThresholdAlert(r, sid, t, avg, true, now);
        }
      }
      assert order[..|order|] == order;
    }

    /** `start`: already running is a no-op; otherwise the aggregator starts running. */
    method Start()
      requires Valid()
      modifies this
      ensures Valid() && running
      ensures buffer == old(buffer) && rawDataBuffer == old(rawDataBuffer)
      ensures sensorOrder == old(sensorOrder) && typeOrder == old(typeOrder)
    {
      if running {
        return;
      }
      running := true;
    }

    /** `stop`: stops running and always performs one final flush. */
    method Stop(db: Db, now: int) returns (r: Db)
      requires Valid()
      modifies this
      ensures Valid() && !running
      ensures old(buffer) == map[] ==> r == db && buffer == old(buffer)
      ensures old(buffer) != map[] ==>
        buffer == map[] && rawDataBuffer == map[] &&
        r == SaveAll(db, intervalSeconds, old(sensorOrder), old(typeOrder), old(buffer), old(rawDataBuffer), now)
    {
      running := false;
      r := CalculateAndSaveAverages(db, now);
    }
  }
}
