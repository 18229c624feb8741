# IoT gateway simulator: a verified model

This Dafny project models the core of an IoT gateway simulator (`iot.py`). The simulator
owns a fixed roster of energy-related sensors. On each publish tick it produces one
reading per sensor and publishes each reading to an MQTT broker. It publishes under the
topic `iot/gateway/{gateway_id}/sensors/{sensor_type}/{sensor_id}`, wrapped in a JSON
envelope that names the gateway and the sensor.

The model has five modules, one per file:

- `Decimal` (`decimal.dfy`): renders a natural number in decimal, as `f"{n}"` does, and
  parses it back. Sensor ids and zone labels embed such numbers.
- `Topics` (`topics.dfy`): builds the topic path and splits a string at `'/'` as
  `str.split` does. A subscriber recovers the path segments with the split.
- `Sensors` (`sensors.dfy`): the nine `SensorType` tags in the order of the roster's type
  list, and the sensor record. It also holds the if/elif dispatch of
  `_generate_sensor_reading` on the type tag, which fixes each reading's unit. The
  reading's number is opaque.
- `Roster` (`roster.dfy`): `_create_sensors`, as a method with the source's two loops.
  `random.choice` is read from a supplied sequence of picks, each an index into the type
  list.
- `Gateway` (`gateway.dfy`): the simulator object. The class `GatewaySimulator` has a
  constant roster and gateway id. The only mutable field is `connected`, written by the
  `on_connect`/`on_disconnect` callbacks. `PublishSensorData` is the publish tick and
  `Disconnect` is the teardown. The ghost field `Sent` is the broker's side: every
  request the gateway hands to the broker client, in order.

The roster has exactly `max(N, 0)` entries. Entry `i` has the id `sensor-{i+1}` and the
location `zone-{(i % 3) + 1}`. The first `min(N, 9)` entries take the nine fixed types
in order; later entries take the type the next random pick names. The ids are pairwise
distinct, every location is one of three zones, and every type is one of the nine tags.

A tick while disconnected reports failure and publishes nothing. A tick while connected
publishes exactly one message per roster entry, in roster order, and reports success
whatever verdicts the broker client returns. Under any gateway id, no two sensors of a
tick share a topic. If the gateway id contains no `'/'`, every topic also splits back into
its six segments. A generated id (`gateway-` plus eight hex digits) never contains one.

The environment is passed in as values. Each sensor in a tick gets a `Draw`: the
timestamp string, the local hour, a sampled magnitude, and whether the broker client
accepted the publish. The gateway id's uuid fallback is passed in as its eight hex
digits.

Two behaviours of the connection flag follow from the code as written:

- `connect` (iot.py:90-106) creates the client and registers the callbacks. It then
  calls `client.connect(broker_host, broker_port, 60)` (iot.py:101) and starts the
  network loop. It never sets `connected` itself. Only the `on_connect` callback with
  result code 0 sets the flag (iot.py:108-114).
- `disconnect` (iot.py:249-254) acts whenever `connected` is still true, and only the
  `on_disconnect` callback clears the flag (iot.py:116-122). A second `Disconnect` issued
  before that callback runs therefore sends a second disconnect request.

## Model

| member | source | states |
|---|---|---|
| `Decimal.NatToString` | iot.py:74 | the decimal spelling of a number used in `f"sensor-{i+1}"` is at least one character long and holds only digits |
| `Decimal.NatToStringShape` | iot.py:74 | the spelling has a single digit exactly for numbers below 10, and no leading zero unless the number is 0 |
| `Decimal.ParseNatToString` | iot.py:74 | parsing the decimal spelling gives back the number (round trip) |
| `Decimal.NatToStringInjective` | iot.py:84 | distinct numbers have distinct decimal spellings |
| `Topics.Topic` | iot.py:209 | the topic is `iot/gateway/` followed by the gateway id, and it ends in `'/'` followed by the sensor id; its length is 22 plus the lengths of the gateway id, type and id |
| `Topics.SplitJoin` | iot.py:209 | splitting at `'/'` undoes joining separator-free segments with `'/'` |
| `Topics.TopicIsJoin` | iot.py:209 | the f-string topic is the six segments `iot`, `gateway`, gateway id, `sensors`, type, id joined by `'/'` |
| `Topics.TopicSegments` | iot.py:209 | splitting a topic at `'/'` gives back exactly those six segments, provided the gateway id, type and id contain no `'/'` |
| `Topics.TopicInjective` | iot.py:209 | under any one gateway id, for `'/'`-free sensor types, equal topics mean equal sensor type and equal sensor id |
| `Sensors.KindOf` | iot.py:132-186 | the if/elif dispatch takes the generic branch exactly when the tag is none of the nine fixed types; any other branch is the one whose tag equals the sensor's type |
| `Sensors.UnitOf` | iot.py:132-186 | a branch writes `units` exactly when it is the generic branch, and `%` exactly for humidity and battery level |
| `Sensors.ReadingUnit` | iot.py:132-186 | a reading's unit is one of the nine fixed units or `units`, and any of the nine fixed types gets a fixed unit |
| `Sensors.KindOfTag` | iot.py:30-39 | every non-generic branch is reached by its own `SensorType` tag, and that tag is in the type list |
| `Sensors.ReadingUnitTable` | iot.py:132-186 | the unit is a fixed function of the type: temperature °C, humidity %, voltage V, current A, power W, energy kWh, solar_irradiance W/m², wind_speed m/s, battery_level %; any other tag gives `units` |
| `Sensors.UnitsOnlyForUnknownTags` | iot.py:183-186 | a reading reports `units` if and only if its tag is not one of the nine fixed types |
| `Sensors.SolarValue` | iot.py:162-171 | the solar value is never negative; it is exactly 0 outside hours 6 to 18; within those hours a non-negative sample passes through unchanged and a negative one is clamped to 0 |
| `Sensors.GenerateReading` | iot.py:128-188 | the reading carries the draw's timestamp and the unit of the sensor's type; a solar reading is the clamped solar value, so it is never negative and is 0 at night; every other type reports the sampled value |
| `Roster.SensorIdIndex` | iot.py:74 | the id `sensor-{i+1}` names index `i` back: it is `sensor-` followed by digits that parse to `i + 1` |
| `Roster.ZoneLabelCycles` | iot.py:76 | index `i` is in zone-1, zone-2 or zone-3 as `i % 3` is 0, 1 or 2, so the zone repeats with period 3 |
| `Roster.EntriesFormRoster` | iot.py:51-88 | a list whose entry `k` carries the id, zone and type of index `k`, with `max(N, 0)` entries, is the roster for `N` |
| `Roster.CreateSensors` | iot.py:51-88 | the roster has `max(N, 0)` entries; entry `i` has id `sensor-{i+1}` and location `zone-{(i % 3) + 1}`; entry `i < 9` has the `i`-th fixed type; entry `i >= 9` has the type named by the `(i - 9)`-th random pick |
| `Roster.RosterUnique` | iot.py:51-88 | for a given count and given picks, those facts leave exactly one possible roster |
| `Roster.SensorIdInjective` | iot.py:74 | distinct roster indices give distinct `sensor-{i+1}` ids |
| `Roster.RosterIdsDistinct` | iot.py:73-86 | the ids of a roster are pairwise distinct, across both loops |
| `Roster.RosterZones` | iot.py:85 | every roster entry, including the random fill, is located in one of the three zones |
| `Roster.RosterTypesKnown` | iot.py:80-85 | every entry's type, including the random fill, is one of the nine fixed types, so no entry takes the generic reading branch |
| `Roster.RosterCoreTypes` | iot.py:56-77 | the first `min(N, 9)` types are pairwise distinct; when `N >= 9`, each of the nine types appears among the first nine entries |
| `Gateway.PublishFor` | iot.py:197-216 | the publish for one sensor goes to that sensor's topic with QoS 1; its envelope names the gateway and the sensor's id, type and location; its reading has the type's unit and the draw's timestamp; the broker's verdict is recorded as given |
| `Gateway.TickRequests` | iot.py:196-220 | a connected tick makes one request per roster entry, as many as there are sensors, and every one is a publish |
| `Gateway.TickRequestsEach` | iot.py:196-220 | the `k`-th request of a tick is the `k`-th sensor's publish under the `k`-th draw |
| `Gateway.TickRequestsStep` | iot.py:196-216 | a tick over the first `k + 1` sensors is the tick over the first `k` followed by the `(k + 1)`-th sensor's publish, as each loop iteration adds one |
| `Gateway.TickEnvelope` | iot.py:199-216 | the `k`-th publish goes to `iot/gateway/{gateway_id}/sensors/{type_k}/{id_k}`; its envelope names the gateway and the `k`-th sensor's id, type and location; its reading has that type's unit; it asks for QoS 1 |
| `Gateway.TickIgnoresVerdicts` | iot.py:214-220 | the broker client's per-publish verdicts change neither the topics nor the messages of a tick |
| `Gateway.TickTopicsParse` | iot.py:209 | for a roster and a `'/'`-free gateway id, every topic of a tick splits into `iot`, `gateway`, the gateway id, `sensors`, the sensor's type and the sensor's id |
| `Gateway.TickTopicsDistinct` | iot.py:209 | for a roster and any gateway id, no two sensors of a tick share a topic |
| `Gateway.AppendedTickTopicsDistinct` | iot.py:196-216 | appended after any earlier requests, a tick's requests are all publishes and have pairwise distinct topics |
| `Gateway.RosterHasNoSep` | iot.py:73-86 | no roster entry's type or id contains `'/'` |
| `Gateway.GeneratedIdHasNoSep` | iot.py:45 | a generated gateway id, `gateway-` plus eight lower-case hex digits, contains no `'/'` |
| `Gateway.FirstThreeSensors` | iot.py:56-77 | any roster of three or more sensors starts with sensor-1 (temperature, zone-1), sensor-2 (humidity, zone-2) and sensor-3 (voltage, zone-3) |
| `Gateway.ThreeSensorTick` | iot.py:196-222 | with three sensors and gateway `gw-test`, a tick publishes exactly three messages, to the temperature/sensor-1, humidity/sensor-2 and voltage/sensor-3 topics in that order, each naming gateway `gw-test` |
| `Gateway.GatewaySimulator.constructor` | iot.py:42-49 | the gateway id is the requested one, or `gateway-` plus the eight lower-case hex digits of a uuid when none is given, in which case it contains no `'/'`; the roster is built by the roster builder; the simulator starts disconnected with nothing sent |
| `Gateway.GatewaySimulator.OnConnect` | iot.py:108-114 | result code 0 sets `connected`; any other code leaves the flag as it was |
| `Gateway.GatewaySimulator.OnDisconnect` | iot.py:116-122 | whatever the result code, `connected` becomes false |
| `Gateway.GatewaySimulator.PublishSensorData` | iot.py:190-222 | the tick returns exactly the `connected` flag; when disconnected nothing is sent; when connected it sends exactly the tick's publishes, in roster order; for a simulator whose roster is the one the roster builder made, the publishes just sent have pairwise distinct topics; the roster and the flag are unchanged |
| `Gateway.GatewaySimulator.Disconnect` | iot.py:249-254 | sends one disconnect request when connected and nothing otherwise; the flag is unchanged |
| `Gateway.TickAfterDrop` | iot.py:190-194 | for any simulator, after the broker drops the connection, a tick reports failure, the flag stays cleared, and neither the tick nor a disconnect sends anything: there is no automatic reconnection |

## Left out

- `connect` (iot.py:90-106) is not modelled. It creates the paho client, registers the callbacks, opens the session with a 60-second keep-alive and starts the client's network thread. All of this is a foreign, asynchronous library. `disconnect`'s guard `self.client and self.connected` becomes `connected` alone: `connected` is only ever set by the `on_connect` callback, which is registered on an existing client.
- `Gateway.GatewaySimulator.Disconnect`: does not model `loop_stop` (iot.py:252), the client's network thread. Whether paho runs `on_disconnect` synchronously inside `client.disconnect()` is library behaviour, so the model leaves clearing `connected` to `OnDisconnect`.
- `_on_publish` (iot.py:124-126) only writes a debug log line.
- All logging, including the per-publish error lines at iot.py:217-220.
- The numbers in readings: the `random.uniform` ranges, `round` to 1–3 decimals, and the solar curve `600 * sin(pi * (hour - 6) / 12)` with noise (iot.py:134-185) are floating-point and random. `Draw.sample` stands for the drawn value. Only the solar branch's zero at night and its clamp at 0 are kept.
- `Sensors.GenerateReading`: does not model the `NameError` raised by the solar daytime branch when the script is imported rather than run. `math` is imported only under `__main__` (iot.py:285). The model assumes the script is run.
- Timestamps (`datetime.now().isoformat()`, `datetime.now().hour`) and `uuid.uuid4()` (iot.py:45, iot.py:130, iot.py:164) are clock and OS randomness. They enter as parameters: `Draw.timestamp`, `Draw.hour` and the constructor's `uuidHex`.
- `random.choice` (iot.py:81) enters as the `picks` sequence, and the broker client's return code enters as `Draw.accepted`.
- `json.dumps` (iot.py:212): the envelope is the `Message` datatype, not its JSON text.
- `Gateway.GatewaySimulator.PublishSensorData`: an exception raised by `client.publish` is caught and logged, exactly like a non-success return code. The model folds both into `Draw.accepted = false`.
- `run` (iot.py:224-247) is not modelled: wall-clock deadline, `time.sleep`, batch counting and `KeyboardInterrupt`.
- `main`, argparse, the broker host/port defaults and logging configuration (iot.py:18-28, iot.py:256-286). `broker_host` and `broker_port` are used only by `connect`.
- The concurrency of the callback thread and the tick thread sharing `connected`: callbacks are modelled as method calls between ticks.
