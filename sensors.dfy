/** Sensor type tags, the sensor record, and the per-type branch of the
    reading generator that fixes each reading's unit. */
module Sensors {

  // The nine type tags of the SensorType class.
  const TEMPERATURE: string := "temperature"
  const HUMIDITY: string := "humidity"
  const VOLTAGE: string := "voltage"
  const CURRENT: string := "current"
  const POWER: string := "power"
  const ENERGY: string := "energy"
  const SOLAR_IRRADIANCE: string := "solar_irradiance"
  const WIND_SPEED: string := "wind_speed"
  const BATTERY_LEVEL: string := "battery_level"

  /** The fixed, ordered type list the roster builder walks and samples. */
  const SensorTypes: seq<string> :=
    [TEMPERATURE, HUMIDITY, VOLTAGE, CURRENT, POWER, ENERGY,
     SOLAR_IRRADIANCE, WIND_SPEED, BATTERY_LEVEL]

  /** An index into SensorTypes: what one random.choice over the list yields. */
  type TypeIndex = i: int | 0 <= i < 9

  /** A roster entry: the "id", "type" and "location" keys of the source's dict. */
  datatype Sensor = Sensor(id: string, sensorType: string, location: string)

  /** The branch of the reading generator's if/elif chain that a tag selects. */
  datatype ReadingKind =
    | Temperature | Humidity | Voltage | Current | Power | Energy
    | SolarIrradiance | WindSpeed | BatteryLevel
    | Generic

  /** The tag a non-generic branch tests for. */
  function Tag(kind: ReadingKind): string
    requires !kind.Generic?
  {
    match kind
    case Temperature => TEMPERATURE
    case Humidity => HUMIDITY
    case Voltage => VOLTAGE
    case Current => CURRENT
    case Power => POWER
    case Energy => ENERGY
    case SolarIrradiance => SOLAR_IRRADIANCE
    case WindSpeed => WIND_SPEED
    case BatteryLevel => BATTERY_LEVEL
  }

  /** The if/elif dispatch on the sensor's type tag; an unknown tag falls
      through to the generic branch. */
  function KindOf(tag: string): (kind: ReadingKind)
    ensures kind.Generic? <==> tag !in SensorTypes
    ensures !kind.Generic? ==> Tag(kind) == tag
  {
    if tag == TEMPERATURE then Temperature
    else if tag == HUMIDITY then Humidity
    else if tag == VOLTAGE then Voltage
    else if tag == CURRENT then Current
    else if tag == POWER then Power
    else if tag == ENERGY then Energy
    else if tag == SOLAR_IRRADIANCE then SolarIrradiance
    else if tag == WIND_SPEED then WindSpeed
    else if tag == BATTERY_LEVEL then BatteryLevel
    else Generic
  }

  /** The unit string each branch writes into the reading. */
  function UnitOf(kind: ReadingKind): (unit: string)
    ensures unit == "units" <==> kind.Generic?
    ensures unit == "%" <==> kind.Humidity? || kind.BatteryLevel?
  {
    match kind
    case Temperature => "°C"
    case Humidity => "%"
    case Voltage => "V"
    case Current => "A"
    case Power => "W"
    case Energy => "kWh"
    case SolarIrradiance => "W/m²"
    case WindSpeed => "m/s"
    case BatteryLevel => "%"
    case Generic => "units"
  }

  /** The units of the nine fixed types, position by position, as an
      independent table. */
  const FixedUnits: seq<string> := ["°C", "%", "V", "A", "W", "kWh", "W/m²", "m/s", "%"]

  /** The unit a sensor of this type reports. */
  function ReadingUnit(tag: string): (unit: string)
    ensures unit in FixedUnits || unit == "units"
    ensures tag in SensorTypes ==> unit in FixedUnits
  {
    UnitOf(KindOf(tag))
  }

  /** Every branch but the generic one is reached by exactly its own tag. */
  lemma KindOfTag(kind: ReadingKind)
    requires !kind.Generic?
    ensures Tag(kind) in SensorTypes
    ensures KindOf(Tag(kind)) == kind
  {
  }

  /** The unit is a fixed function of the type: the i-th fixed type reports
      the i-th unit of the table, and any other tag reports "units". */
  lemma ReadingUnitTable(tag: string)
    ensures forall i :: 0 <= i < 9 && tag == SensorTypes[i] ==> ReadingUnit(tag) == FixedUnits[i]
    ensures tag !in SensorTypes ==> ReadingUnit(tag) == "units"
  {
  }

  /** Only the generic branch reports "units"; the nine fixed types never do. */
  lemma UnitsOnlyForUnknownTags(tag: string)
    ensures ReadingUnit(tag) == "units" <==> tag !in SensorTypes
  {
  }

  /** One reading: the "timestamp", "value" and "unit" keys. */
  datatype Reading = Reading(timestamp: string, value: real, unit: string)

  /** What the clock, the random source and the broker supply while one
      sensor's reading is produced and published: the isoformat timestamp,
      the local hour, the sampled magnitude (standing for the rounded uniform
      draw, or for the solar curve plus noise), and whether the broker
      accepted the publish. */
  datatype Draw = Draw(timestamp: string, hour: int, sample: real, accepted: bool)

  /** The solar branch: zero outside hours 6..18, and otherwise the sample
      clamped at a floor of zero. */
  function SolarValue(hour: int, sample: real): (v: real)
    ensures v >= 0.0
    ensures !(6 <= hour <= 18) ==> v == 0.0
    ensures 6 <= hour <= 18 && sample >= 0.0 ==> v == sample
    ensures 6 <= hour <= 18 && sample < 0.0 ==> v == 0.0
  {
    if 6 <= hour <= 18 then (if sample < 0.0 then 0.0 else sample) else 0.0
  }

  /** The reading generated for a sensor under the given draw. */
  function GenerateReading(sensor: Sensor, draw: Draw): (r: Reading)
    ensures r.timestamp == draw.timestamp
    ensures r.unit == ReadingUnit(sensor.sensorType)
    ensures KindOf(sensor.sensorType).SolarIrradiance? ==> r.value == SolarValue(draw.hour, draw.sample)
    ensures KindOf(sensor.sensorType).SolarIrradiance? ==> r.value >= 0.0
    ensures KindOf(sensor.sensorType).SolarIrradiance? && !(6 <= draw.hour <= 18) ==> r.value == 0.0
    ensures !KindOf(sensor.sensorType).SolarIrradiance? ==> r.value == draw.sample
  {
    var kind := KindOf(sensor.sensorType);
    var value := if kind.SolarIrradiance? then SolarValue(draw.hour, draw.sample) else draw.sample;
    Reading(draw.timestamp, value, UnitOf(kind))
  }
}
