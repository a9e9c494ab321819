# AGRORETO telemetry ingestion, modelled in Dafny

This project models the telemetry ingestion path of the AGRORETO agricultural monitoring
application. Field sensors publish MAIoTA messages such as
`CIoTA-D1=2603&D2=5411&D3=2542&D4=43&D5=580&D6=103&D7=1&` over MQTT. The modelled path is:

- the multi-sensor MQTT client decodes each message and passes it, enriched with the
  sensor's details, to the one callback registered for its topic;
- at start-up the router groups the active sensors by topic, and each topic's callback
  stores the reading for every sensor of the group and checks it against that sensor's
  thresholds;
- the aggregator buffers readings and periodically stores their mean, minimum, maximum and
  count;
- the dashboard colours each sensor gray, green or red from its latest reading, raises an
  alert only when no open alert of the same sensor and type exists, shows how long ago the
  reading was taken, and lets a user acknowledge an alert;
- the sensor form derives a unit from the chosen type, resets itself when its modal
  closes, reads the parcel id from the page parameters, and registers new sensors with the
  client.

Modules, one file each:

| file | module | what it holds |
|---|---|---|
| `wrappers.dfy` | `Wrappers` | `Option` |
| `seqs.dfy` | `Seqs` | distinct sequences, removal, the key order of a dict after insertions |
| `text.dfy` | `Text` | ASCII digits, `int()` on digit strings, `str(n)`, `startswith`, `in` on strings, `s[:n]` |
| `values.dfy` | `PyValues` | the values inside reading dictionaries, `dict.get`, `float()` |
| `payload.dfy` | `Payload` | the MAIoTA decoder, the wire format written out, and the round trip |
| `records.dfy` | `Records` | the tables (sensors, readings, alerts), threshold classification, the reading built from a delivered dictionary, the type map |
| `mqtt_client.dfy` | `MqttClient` | class `MultiSensorClient`: registry, connection state, broker call log |
| `aggregator.dfy` | `Aggregator` | statistics and class `SensorDataAggregator` |
| `app.dfy` | `App` | the direct writer, the topic fan-out, grouping and registration at start-up |
| `dashboard.dfy` | `Dashboard` | sensor status, alert de-duplication, access filter, class `DashboardState` |
| `sensor_form.dfy` | `SensorForm` | unit rules, parcel id parsing, class `SensorState`, sensor registration |
| `ingestion.dfy` | `Ingestion` | one inbound message end to end |

The database is a value, `Records.Db`, holding its tables in insertion order. An alert's id
is its position plus one. Clocks (`datetime.now()` and `datetime.utcnow()`) are parameters.
A callback is a value of `Records.Handler`: the client returns the handler together with
the enriched data, and the caller runs it.

Where the design description and the code differ, the model follows the code:

- The decoder finds `D<digits>=[↓]<digits>` anywhere in the text, as a regular expression
  `findall` does; it does not split on `&`. The glyph is accepted on every index, but only
  the glyph on index 3 is read.
- Only the dashboard de-duplicates alerts. The aggregator's threshold check and the
  router's direct writer add a new open alert on every out-of-range value
  (`Records.ThresholdAlertRepeats`).
- The dashboard writes alert types `"LOW"`/`"HIGH"`, while the other writers use
  `"low"`/`"high"`. An open pipeline alert therefore never suppresses a dashboard alert
  (`Dashboard.PipelineAlertDoesNotDeduplicate`).
- The callback the sensor form registers saves the reading and then calls a threshold
  check that exists only as a comment. The resulting error is swallowed by the client, so
  that callback never raises an alert (`Ingestion.RunHandler`).

## Model

| member | source | states |
|---|---|---|
| `Payload.Decode` | app/services/maiota_client.py:172-174 | no result exactly when the payload does not start with `CIoTA-`; a result carries the decoding time (values as exact reals, with no float overflow) |
| `Payload.ParsePayload` | app/services/maiota_client.py:172-196 | the loop that folds the matches into `raw_values` (a later match for an index overwrites an earlier one) computes exactly `Decode` |
| `Payload.AsDict` | app/services/maiota_client.py:186-196 | the decoded dictionary has the seven metric keys plus `timestamp` and `humedad_suelo_baja` |
| `Payload.MatchAt` | app/services/maiota_client.py:176 | one match of `D(\d+)=([↓]?)(\d+)` at a position, with greedy digit runs |
| `Payload.DigitRunEnd` | app/services/maiota_client.py:176 | the end of a greedy `\d+` run: every character before it is a digit and the one at it is not |
| `Payload.FindAllMatches` | app/services/maiota_client.py:176-177 | `FindAll`, the `re.findall` of these lines, scans left to right without overlap: at most one match per four characters, and no match exactly when no position matches |
| `Payload.LastEntryIsLast` | app/services/maiota_client.py:179-184 | `LastEntry`, the `raw_values[f"D{n}"]` lookup, is the last match with index n, and is absent exactly when no match has that index |
| `Payload.FromFields` | app/services/maiota_client.py:186-196 | the record carries the decoding time, and every metric is non-negative, since a `\d+` run has no sign |
| `Payload.FromFieldsLastEntries` | app/services/maiota_client.py:179-196 | the record depends only on the last match of each index 1 to 7: two match lists that agree on those give the same record |
| `Payload.EncodeDecode` | app/services/maiota_client.py:176-196 | round trip, over exact reals: a payload written in the wire format decodes, index by index, to the last value sent, divided by 100 (D1-D3), by 10 (D4) or not at all (D5-D7), and the soil-low flag comes from index 3's glyph |
| `Payload.LaterFieldWins` | app/services/maiota_client.py:179-184 | an appended field overrides its index and leaves every other index unchanged |
| `Payload.MissingIndexIsZero` | app/services/maiota_client.py:188-194 | an index with no match reads as 0 without the glyph, and is not an error |
| `Payload.GlyphIgnoredOffIndex3` | app/services/maiota_client.py:195 | setting or clearing the glyph on a field whose index is not 3 leaves the decoded record unchanged |
| `Payload.ExamplePayload` | tests/test_maiota_client.py:35-61 | the test's literal payload `CIoTA-D1=2603&D2=5411&D3=2542&D4=43&D5=580&D6=103&D7=1&` decodes to 26.03, 54.11, 25.42, 4.3, 580, 103, 1 with the flag off |
| `Payload.ExampleInvalid` | tests/test_maiota_client.py:64-74 | `INVALID-D1=2603&D2=5411` does not decode |
| `Payload.ExampleGlyph` | tests/test_maiota_client.py:77-89 | the test's literal payload `CIoTA-D1=2500&D2=5000&D3=↓1500&D4=50&D5=600&D6=100&D7=2&` decodes to 25.0, 50.0, 15.0, 5.0, 600, 100, 2 with the flag on |
| `Payload.ExampleGlyphOverwritten` | app/services/maiota_client.py:184 | a later `D3` without the glyph overrides both the value and the flag |
| `Text.NatToString` | app/states/sensor_state.py:55-56 | `str(n)`, the text that `int()` at these lines is checked against in `SensorForm.ParseIntRoundTrip`: a non-empty run of ASCII digits with no leading zero whose value is n |
| `Seqs.Inserted` | app/services/maiota_client.py:210-215 | the key order of a dict after assignments: old keys keep their places, each new key is appended once |
| `Seqs.Without` | app/services/maiota_client.py:232-233 | `del d[k]` on the key order: exactly the other keys remain, order kept |
| `Seqs.WithoutAppended` | app/services/maiota_client.py:198-237 | removing the key that was inserted last restores the previous key order |
| `PyValues.ToFloat` | app/app.py:39 | `float(v)` on an exact number: succeeds exactly on floats, ints and bools, and keeps the number; a bool reads as 1.0 or 0.0 (the float range is not modelled) |
| `PyValues.MetricValue` | app/app.py:39 | `float(data.get(metric, 0.0))`: 0.0 for a missing key, otherwise the conversion of the stored value |
| `Records.FindSensor` | app/app.py:69-71 | `session.get(Sensor, id)`: found exactly when a row has that id, and then it is that row |
| `Records.Classify` | app/app.py:76-87 | low exactly when value < low; high exactly when not low and value > high; no violation exactly when low <= value <= high |
| `Records.PipelineKind` | app/app.py:76-87 | the reading pipeline writes the alert type in lower case: `low` exactly for a low violation, `high` exactly for a high one |
| `Records.ThresholdAlert` | app/app.py:66-102 | unknown sensor or value in band: tables unchanged; otherwise exactly one open alert of type `low`/`high` is appended, stamped with the clock |
| `Records.ThresholdAlertRepeats` | app/services/data_aggregator.py:146-169 | no de-duplication: two out-of-range checks add two open alerts of the same sensor and type |
| `Records.OpenCountAppend` | app/services/data_aggregator.py:160-169 | appending an alert raises the open count of its sensor and type by one when it is unacknowledged, and changes no other count |
| `Records.StampOf` | app/app.py:49 | the stored timestamp is the dictionary's datetime when present, the clock when absent; a present non-datetime is refused |
| `Records.ReadingOf` | app/app.py:39-51 | a reading is built exactly when `float(data.get(metric, 0.0))` succeeds and the timestamp is accepted; its value, timestamp and sensor are those, and its raw text is `raw_payload` when present, otherwise the JSON dump |
| `Records.MapType` | app/app.py:126-134 | known types map to one of the seven metric keys; unknown types give the fallback |
| `Records.TypeMapCoversMetrics` | app/app.py:126-134 | the type map covers exactly the seven metric keys of a decoded payload, and distinct types map to distinct metrics |
| `MqttClient.Subscriptions` | app/services/maiota_client.py:79-80 | one subscribe call per topic, in key order |
| `MqttClient.SubscribedOnce` | app/services/maiota_client.py:79-80 | resubscribing distinct topics subscribes each registered topic exactly once and nothing else |
| `MqttClient.Enriched` | app/services/maiota_client.py:136-143 | the decoded dictionary gains `sensor_code`, `sensor_id`, `sensor_type` (defaults `Unknown`, `None`, `temperatura`), `topic` and `raw_payload`, and keeps every other key |
| `MqttClient.MultiSensorClient.constructor` | app/services/maiota_client.py:18-36 | client id `Equipo3_` plus eight characters of the unique id; empty registry; disconnected; zero attempts |
| `MqttClient.MultiSensorClient.AddSensor` | app/services/maiota_client.py:198-221 | one entry per topic: a later registration replaces the earlier sensor information and callback; subscribes only while connected |
| `MqttClient.MultiSensorClient.RemoveSensor` | app/services/maiota_client.py:223-237 | an unregistered topic changes nothing; a registered one loses both entries and is unsubscribed only while connected |
| `MqttClient.MultiSensorClient.OnConnect` | app/services/maiota_client.py:62-92 | rc 0: connected, zero attempts, every registered topic subscribed in key order; otherwise disconnected and nothing else changes |
| `MqttClient.MultiSensorClient.OnDisconnect` | app/services/maiota_client.py:94-115 | always disconnected; attempts grow by one only when rc is not 0; reaching the maximum is only reported |
| `MqttClient.MultiSensorClient.OnMessage` | app/services/maiota_client.py:117-149 | a handler is returned, at most once, exactly when the payload decodes and the topic is registered; it is the topic's handler with the enriched data |
| `Aggregator.Min` | app/services/data_aggregator.py:96 | `min(values)` is an element no larger than any other |
| `Aggregator.Max` | app/services/data_aggregator.py:97 | `max(values)` is an element no smaller than any other |
| `Aggregator.MeanBetween` | app/services/data_aggregator.py:89-98 | `Mean` (`sum(values) / len(values)`) lies between `Min` and `Max`: the stored average lies between the stored minimum and maximum |
| `Aggregator.ConstantMean` | app/services/data_aggregator.py:89-97 | equal samples average to their value, which is also the minimum and the maximum |
| `Aggregator.ExampleStatistics` | tests/test_data_aggregator.py:142-152 | 10, 20, 30 average to 20, with minimum 10 and maximum 30 |
| `Aggregator.LastSample` | app/services/data_aggregator.py:104-110 | `last_sample` is present exactly when the sensor has buffered dictionaries, and is the last one appended |
| `Aggregator.AveragedReading` | app/services/data_aggregator.py:88-118 | the stored value is the mean; the summary holds the count, min <= avg <= max with min and max taken from the samples, the type and the last sample |
| `Aggregator.SaveOne` | app/services/data_aggregator.py:84-128 | an empty list is skipped; otherwise its averaged reading is appended and the mean is checked against the thresholds |
| `Aggregator.ExampleFlush` | tests/test_data_aggregator.py:142-152 | a flush of 10, 20, 30 stores one reading of value 20 with the summary (5 minutes, 3 samples, 10, 30, 20) |
| `Aggregator.SaveAllAppends` | app/services/data_aggregator.py:83-128 | `SaveAll`, the whole flush, keeps the sensor table and every earlier reading and alert, and adds exactly one reading per non-empty buffer |
| `Aggregator.SaveAllStores` | app/services/data_aggregator.py:83-128 | no non-empty buffer is lost by `SaveAll`: each one's averaged reading is among the stored readings |
| `Aggregator.SaveTypesStores` | app/services/data_aggregator.py:84-128 | `SaveTypes`, one sensor's part of the flush, stores each non-empty buffer's averaged reading |
| `Aggregator.SaveTypesAppends` | app/services/data_aggregator.py:84-128 | `SaveTypes`, one sensor's part of a flush, only appends, one reading per non-empty buffer |
| `Aggregator.SensorDataAggregator.constructor` | app/services/data_aggregator.py:24-34 | `interval_seconds = interval_minutes * 60`, empty buffers, not running |
| `Aggregator.AddKeepsConsistent` | app/services/data_aggregator.py:51-55 | creating or extending a (sensor, type) list keeps the key orders listing each buffer key exactly once |
| `Aggregator.SensorDataAggregator.AddReading` | app/services/data_aggregator.py:38-55 | the converted value is appended to the end of its (sensor, type) list and the dictionary to the sensor's raw list; every other list is unchanged; a failed conversion still creates the empty list and appends nothing |
| `Aggregator.SensorDataAggregator.CalculateAndSaveAverages` | app/services/data_aggregator.py:62-134 | an empty buffer returns with no change; otherwise both buffers end empty and the tables are the flush of exactly the pre-flush contents |
| `Aggregator.SensorDataAggregator.SaveSensor` | app/services/data_aggregator.py:84-128 | the inner loop over one sensor's types computes that sensor's part of the flush |
| `Aggregator.SensorDataAggregator.Start` | app/services/data_aggregator.py:185-198 | running afterwards; already running is a no-op; buffers untouched |
| `Aggregator.SensorDataAggregator.Stop` | app/services/data_aggregator.py:200-211 | not running afterwards, and always one final flush |
| `App.SaveSensorReadingDirect` | app/app.py:34-63 | when the reading can be built it is appended, and an alert is added exactly when the sensor exists and the value is out of band; otherwise nothing changes |
| `App.FanOutAll` | app/app.py:140-155 | the fan-out keeps the sensor table and only appends readings |
| `App.FanOut` | app/app.py:144-155 | the callback's loop visits every sensor of the group in order with its mapped type |
| `App.FanOutConcat` | app/app.py:144-155 | fanning out over two groups in turn is fanning out over their concatenation |
| `App.FailureIsolated` | app/app.py:152-155 | a sensor whose save fails is skipped and the loop goes on: the tables end as if it were not in the group |
| `App.FanOutMetric` | app/app.py:150 | `type_map.get(s_type, s_type)`: a known type reads one of the seven metric keys, an unknown type reads its own name |
| `App.FanOutStoresEach` | app/app.py:144-153 | every sensor of the group whose reading can be built gets it stored |
| `App.ActiveSensors` | app/app.py:109-111 | the rows with `active` set, and only those |
| `App.TopicsOf` | app/app.py:114-118 | the keys of `sensors_by_topic`: each topic of an active sensor exactly once |
| `App.GroupOf` | app/app.py:114-123 | a group is never longer than the rows, and is empty exactly when no active sensor has that topic |
| `App.GroupOfOrder` | app/app.py:115-123 | a group preserves query order: its k-th entry is the k-th row with that topic |
| `App.FirstOfGroup` | app/app.py:161 | the first entry of a group is the first sensor of that topic in query order |
| `App.GroupSizesTotal` | app/app.py:172 | every active sensor lands in exactly one group: the group sizes add up to the number of active sensors |
| `App.GroupByTopic` | app/app.py:114-123 | the grouping loop builds exactly the topics and groups above |
| `App.Registration` | app/app.py:161-165 | id of the group's first sensor, code `Topic_` plus the first 20 characters of the topic, type mapped with fallback `temperatura` |
| `App.Handlers` | app/app.py:137-168 | one callback per topic, fanning out to that topic's whole group |
| `App.Registrations` | app/app.py:161-168 | one registration per topic, from the first sensor of its group |
| `App.LoadExistingSensors` | app/app.py:105-173 | the client ends with exactly one registration per topic on top of the earlier ones; topics are subscribed only while connected; the reported total is the number of active sensors |
| `App.RegisterTopics` | app/app.py:137-168 | the registration loop adds the callbacks, sensor information, key order and subscriptions of the topics in order |
| `Dashboard.LastUpdate` | app/states/dashboard_state.py:128-134 | under 60 s just now; under 3600 s floor(s/60) minutes, between 1 and 59; otherwise floor(s/3600) hours, at least 1 |
| `Dashboard.AgoText` | app/states/dashboard_state.py:92-134 | the texts `Nunca`, `Justo ahora`, `<n>m atrás`, `<n>h atrás` |
| `Dashboard.AgoTextInjective` | app/states/dashboard_state.py:128-134 | distinct buckets show distinct texts, so the number shown is the bucket's count |
| `Dashboard.LatestReading` | app/states/dashboard_state.py:21-27 | present exactly when the sensor has a reading; then it is one of its readings with the greatest timestamp |
| `Dashboard.DashboardKind` | app/states/dashboard_state.py:100-107 | the dashboard writes the alert type in upper case: `LOW` exactly for a low violation, `HIGH` exactly for a high one |
| `Dashboard.StatusOf` | app/states/dashboard_state.py:88-145 | gray, no value and `Nunca` exactly when there is no reading; otherwise the latest value, its bucket, and red exactly when it is out of band |
| `Dashboard.Statuses` | app/states/dashboard_state.py:87-147 | one status per sensor, in query order |
| `Dashboard.RaiseOnce` | app/states/dashboard_state.py:111-126 | the alert is appended exactly when no open alert of the same sensor and type exists |
| `Dashboard.OpenCountPositive` | app/states/dashboard_state.py:112-118 | the `existing` query (`HasOpen`) finds an alert exactly when the count of open alerts of that sensor and type is positive |
| `Dashboard.RaiseOnceKeepsOne` | app/states/dashboard_state.py:111-126 | from at most one open alert per sensor and type, there is exactly one after raising |
| `Dashboard.OpenStaysOpen` | app/states/dashboard_state.py:111-126 | later alerts never close an open one |
| `Dashboard.ViolationAlert` | app/states/dashboard_state.py:119-125 | the new alert belongs to the sensor, carries the latest reading's timestamp and the upper-case type, and is open |
| `Dashboard.LatestViolation` | app/states/dashboard_state.py:100-109 | a violation exists exactly when the status is red |
| `Dashboard.CheckSensor` | app/states/dashboard_state.py:94-126 | only alerts change, by at most one appended; a sensor in violation ends with an open alert of its type; the alert is appended exactly when none of that sensor and type was open, and it is the violation's alert |
| `Dashboard.CheckAll` | app/states/dashboard_state.py:88-126 | the alert steps of all sensors keep the sensors and readings and only append alerts |
| `Dashboard.CheckAllOpens` | app/states/dashboard_state.py:111-126 | after the pass every listed sensor in violation has an open alert of its type |
| `Dashboard.CheckAllStable` | app/states/dashboard_state.py:111-126 | once every sensor in violation has an open alert of its type, the pass changes nothing |
| `Dashboard.CheckAllIdempotent` | app/states/dashboard_state.py:111-126 | repeating the dashboard's check adds nothing |
| `Dashboard.PipelineAlertDoesNotDeduplicate` | app/states/dashboard_state.py:102-116 | an open `low`/`high` alert from the pipeline does not count as an open `LOW`/`HIGH` alert |
| `Dashboard.AssignedTo` | app/states/dashboard_state.py:49-53 | the parcel ids assigned to the user |
| `Dashboard.ParcelsWhere` | app/states/dashboard_state.py:56-65 | the parcels owned by the user or among the assigned ids, in query order |
| `Dashboard.Accessible` | app/states/dashboard_state.py:43-65 | a farmer sees every parcel; anyone else sees exactly their own parcels and the ones assigned to them |
| `Dashboard.Ids` | app/states/dashboard_state.py:67 | one column of some rows in order: with `ParcelKey` the parcel ids at this line, with `SensorKey` the sensor ids at line 150 |
| `Dashboard.SensorsIn` | app/states/dashboard_state.py:81-83 | the sensors whose parcel is accessible, and only those |
| `Dashboard.OpenAlertCount` | app/states/dashboard_state.py:150-158 | no more than the alerts there are, and zero for no sensors |
| `Dashboard.OpenAlertCountIsCount` | app/states/dashboard_state.py:152-158 | the count is the number of alert rows the `count` query matches: unacknowledged and of a listed sensor |
| `Dashboard.OpenAlertCountAppend` | app/states/dashboard_state.py:152-158 | the count over two runs of alerts is the sum of their counts |
| `Dashboard.CheckAllAppendsOpen` | app/states/dashboard_state.py:111-126 | every alert the pass appends is open and belongs to one of the checked sensors |
| `Dashboard.CheckAllCount` | app/states/dashboard_state.py:88-158 | after the pass, the open count of the checked sensors is the earlier count plus the number of alerts raised |
| `Dashboard.CountRed` | app/states/dashboard_state.py:227-230 | no more red statuses than statuses |
| `Dashboard.CriticalMatchesViolations` | app/states/dashboard_state.py:227-230 | the red statuses are exactly the sensors whose latest reading is out of band |
| `Dashboard.Acknowledge` | app/states/dashboard_state.py:197-202 | only the alert with that id becomes acknowledged; an absent id changes nothing |
| `Dashboard.AcknowledgeCount` | app/states/dashboard_state.py:197-202 | acknowledging an open alert of a listed sensor lowers the count by exactly one; any other id leaves it unchanged |
| `Dashboard.AcknowledgeReopens` | app/states/dashboard_state.py:111-126 | once a sensor's only open alert is acknowledged, the next check raises a new one while the violation lasts |
| `Dashboard.DashboardState.constructor` | app/states/dashboard_state.py:14-19 | zero counters, no statuses, not polling |
| `Dashboard.DashboardState.CriticalCount` | app/states/dashboard_state.py:227-230 | at most the number of statuses |
| `Dashboard.DashboardState.LoadDashboardStats` | app/states/dashboard_state.py:30-147 | no user: only the status list is emptied; no accessible parcel: every counter zeroed; otherwise parcels, sensors and statuses of the accessible sensors, the alert pass applied in order, and the open alerts of those sensors counted, which is the earlier open count plus the alerts the pass raised |
| `Dashboard.DashboardState.AcknowledgeAlert` | app/states/dashboard_state.py:195-204 | the reload sees the acknowledged tables: no user empties only the status list; no accessible parcel zeroes every counter; otherwise parcels, sensors and statuses of the accessible parcels, the pass over the acknowledged tables, and the open count of those sensors |
| `Dashboard.DashboardState.StartPolling` | app/states/dashboard_state.py:208-213 | polling afterwards; a second start is a no-op |
| `Dashboard.DashboardState.StopPolling` | app/states/dashboard_state.py:223-225 | polling stopped; nothing else changes |
| `SensorForm.FormMetric` | app/states/sensor_state.py:208 | `maiota_type_map.get(type, "temperatura")`: a known type's metric, or `temperatura` |
| `SensorForm.UnitFor` | app/states/sensor_state.py:119-130 | the tests in order: exactly `temperature` gives °C, then containing `humidity` gives %, containing `luminosity` gives lux, `co2` gives ppm, `cov`/`nox` give Index; any other type keeps the unit |
| `SensorForm.OfferedTypesSetUnit` | app/states/sensor_state.py:119-130 | every type the form offers sets its own unit whatever the previous unit was; both humidity types get % through the substring test |
| `SensorForm.HumidityTestedFirst` | app/states/sensor_state.py:123-126 | the humidity test comes before the luminosity test |
| `SensorForm.ParseInt` | app/states/sensor_state.py:55-59 | `int()` on a string succeeds exactly on a non-empty digit string or a sign followed by one: the digits give their value, `+` keeps it and `-` negates it |
| `SensorForm.ParseIntRoundTrip` | app/states/sensor_state.py:55-56 | `int(str(n)) == n` for every integer |
| `SensorForm.ParseIntRejects` | app/states/sensor_state.py:55-59 | a character that is neither a digit nor a leading sign makes `int()` fail |
| `SensorForm.ParcelId` | app/states/sensor_state.py:51-59 | 0 when the parameter is missing, empty or not an integer; otherwise the parsed integer |
| `SensorForm.ParcelIdOfLink` | app/states/sensor_state.py:51-59 | a page opened for parcel n reads parcel n |
| `SensorForm.SaveSensorReading` | app/states/sensor_state.py:225-251 | the reading is appended when it can be built, with the local clock; no alert is written |
| `SensorForm.SensorState.constructor` | app/states/sensor_state.py:18-29 | the modal closed and every form field at its default |
| `SensorForm.SensorState.ResetForm` | app/states/sensor_state.py:194-202 | every form field back to its default, the default topic included |
| `SensorForm.SensorState.ToggleAddModal` | app/states/sensor_state.py:108-112 | opening keeps the form; closing resets every field |
| `SensorForm.SensorState.SetSensorType` | app/states/sensor_state.py:119-130 | the type is stored and the unit becomes the one the type implies; other fields unchanged |
| `SensorForm.RegisterSensorMqtt` | app/states/sensor_state.py:204-223 | the topic's callback becomes the single-sensor callback with the mapped metric, replacing a topic fan-out if one was there |
| `Ingestion.MetricOf` | app/services/maiota_client.py:188-194 | the value `float()` reads from the decoded dictionary for a metric key |
| `Ingestion.RunHandler` | app/states/sensor_state.py:210-213 | a callback keeps the sensor table and only appends readings; the form's callback adds at most one reading and no alert |
| `Ingestion.HandleMessage` | app/services/maiota_client.py:133-149 | a message changes nothing unless it decodes and its topic is registered; then the topic's callback runs once on the enriched data |
| `Ingestion.EnrichedReading` | app/services/maiota_client.py:137-143 | the reading built from a delivered message holds the decoded value, the decoding time and the payload text |
| `Ingestion.SingleSensorStoresDecoded` | app/states/sensor_state.py:225-243 | a form-registered sensor stores exactly the decoded value of its metric and raises no alert |
| `Ingestion.FanOutStoresDecoded` | app/app.py:144-153 | each sensor of a fanned-out topic whose type maps to a metric gets that metric's decoded value stored |
| `Ingestion.UnknownTypeStoresZero` | app/app.py:150 | in the fan-out, a sensor type that is neither known nor a key of the data reads the default and stores 0.0 |
| `Ingestion.WritersAgree` | app/states/sensor_state.py:225-243 | the form's writer and the router's writer store the same reading for the same data and clock |

## Left out

- MQTT networking (`_init_client`, `start`, `stop`, the network loop thread, the reconnect backoff) is foreign library code. Only the state fields and a log of subscribe and unsubscribe calls are modelled.
- The eight characters of `uuid4` are a parameter of the client's constructor.
- Locks, threads, `_aggregation_loop` with its timer, and the dashboard's polling loop are timing. Each method is one atomic step.
- Database sessions, commits and failures are not modelled: the tables are a value and every write succeeds. The one exception is that a timestamp the store would refuse stops the save.
- `json.dumps`, `isoformat` and the alert message texts with their `:.1f`/`:.2f` formatting are kept as structured values (`Raw`, `Message`), not as text.
- `Aggregator.AveragedReading`: the stored value is the exact mean, not `round(avg, 2)`; values are exact reals, not floats.
- `PyValues.ToFloat`: a string value is taken to fail, so numeric strings are not parsed.
- `PyValues.ToFloat`: numbers are exact reals and Python's float range is not modelled: `float()` of an int at or beyond 2**1024 raises `OverflowError` in Python (and the writers then store nothing), while the model converts every int.
- `Payload.Decode`: numbers are exact reals and the float range is not modelled. A D1-D4 digit run so long that its division overflows makes Python raise `OverflowError` out of `_on_message`, while the model decodes it; `Payload.EncodeDecode` likewise holds for every natural value. CPython's 4300-digit limit on `int()` of a string is not modelled either.
- The decoder's `\d` accepts only ASCII digits, while Python also accepts other Unicode decimal digits.
- `SensorForm.ParseInt` does not model the surrounding whitespace, the underscores between digits, or the non-ASCII decimal digits (such as `٣`) that Python's `int()` accepts.
- `Dashboard.LatestReading`: among readings with equal timestamps the model takes the one stored last. The SQL query leaves that order unspecified.
- The dashboard's list of the five newest open alerts (`active_alerts_list`) and their "time ago" texts are left out: they depend on SQL ordering and a limit, and their text is display only.
- `App.SaveSensorReadingDirect` uses one clock value both for the reading's fallback timestamp and for the alert's stamp, where the source calls `datetime.utcnow()` twice.
- The aggregator uses one clock value for a flush's readings and its alerts, where the source calls `datetime.now()` twice.
- `Dashboard.DashboardState.LoadDashboardStats` uses one clock value for every sensor's "last update" bucket, where the source calls `datetime.now()` once per sensor.
- The source uses UTC time in the direct writer and local time in the form's writer. The model takes each as its own parameter and does not relate them.
- Logging is left out everywhere.
- Sensor form setters that only assign one field (`set_sensor_code`, `set_sensor_unit`, `set_sensor_desc`, `set_sensor_mqtt_topic`) are left out, and so are the float-parsing setters `set_sensor_low`/`set_sensor_high`.
- The form's database handlers are left out: `load_sensors`, `add_sensor` and `delete_sensor`. Only `_register_sensor_mqtt` and `_save_sensor_reading` are modelled.
- `app/states/auth_state.py` is not part of this model; the user id and role are parameters of the dashboard.
