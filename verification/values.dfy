/** The Python values that travel inside the reading dictionaries passed from the MQTT
    client to the callbacks and the aggregator, and the two operations the core applies
    to them: `d.get(key, default)` and `float(v)`. */
module PyValues {
  import opened Wrappers

  /** A value held in a reading dictionary: a float, an int, a bool, a str, a datetime
      (seconds, opaque) or None. */
  datatype Value = Float(f: real) | Int(i: int) | Bool(b: bool) | Str(s: string) | Time(t: int) | NoneValue

  type Dict = map<string, Value>

  /** `d.get(key, default)`. */
  function Get(d: Dict, key: string, default: Value): Value {
    if key in d then d[key] else default
  }

  /** Python's `float(v)`: floats, ints and bools convert (a bool is 1.0 or 0.0); a
      datetime or None raises TypeError and a str is taken to raise ValueError, shown here
      as `None`. */
  function ToFloat(v: Value): (r: Option<real>)
    ensures r.Some? <==> v.Float? || v.Int? || v.Bool?
    ensures v.Float? ==> r == Some(v.f)
    ensures v.Int? ==> r == Some(v.i as real)
    ensures v.Bool? ==> r == Some(if v.b then 1.0 else 0.0)
  {
    match v
    case Float(f) => Some(f)
    case Int(i) => Some(i as real)
    case Bool(b) => Some(if b then 1.0 else 0.0)
    case _ => None
  }

  /** The value a reading stores for a metric: `data.get(sensor_type, 0.0)` passed to
      `float(...)`; a missing metric reads as 0.0. */
  function MetricValue(data: Dict, metric: string): (r: Option<real>)
    ensures metric !in data ==> r == Some(0.0)
    ensures metric in data ==> r == ToFloat(data[metric])
  {
    ToFloat(Get(data, metric, Float(0.0)))
  }
}
