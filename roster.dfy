/** The roster builder of the gateway simulator: one sensor per fixed type
    in order, then random types for the rest, ids and zones by index. */
module Roster {
  import opened Sensors
  import Decimal

  datatype Option<T> = None | Some(value: T)

  /** The roster index an id names: "sensor-" followed by the decimal
      spelling of a positive number n gives index n - 1. */
  function IdIndex(id: string): Option<nat> {
    if |id| > 7 && id[..7] == "sensor-" && forall k :: 7 <= k < |id| ==> Decimal.IsDigit(id[k]) then
      var n := Decimal.ParseDecimal(id[7..]);
      if n >= 1 then Some(n - 1) else None
    else None
  }

  /** The id f"sensor-{i+1}" of the sensor at roster index i. */
  function SensorId(i: nat): string {
    "sensor-" + Decimal.NatToString(i + 1)
  }

  /** The id of index i names index i back: it is "sensor-" followed by
      the decimal spelling of i + 1. */
  lemma SensorIdIndex(i: nat)
    ensures IdIndex(SensorId(i)) == Some(i)
  {
    var digits := Decimal.NatToString(i + 1);
    Decimal.ParseNatToString(i + 1);
    assert SensorId(i)[7..] == digits;
    assert SensorId(i)[..7] == "sensor-";
  }

  /** The three zone labels sensors are spread over. */
  const Zones: set<string> := {"zone-1", "zone-2", "zone-3"}

  /** The location f"zone-{(i % 3) + 1}" of the sensor at roster index i. */
  function ZoneLabel(i: nat): string {
    "zone-" + Decimal.NatToString(i % 3 + 1)
  }

  function Max0(n: int): nat {
    if n < 0 then 0 else n
  }

  /** What the roster built for a requested count n with random picks
      `picks` looks like: exactly max(n, 0) entries; entry i has the id and
      zone of index i; the first (up to) nine take the fixed types in order;
      entry i >= 9 takes the type the (i - 9)-th pick names. */
  ghost predicate IsRoster(n: int, picks: seq<TypeIndex>, sensors: seq<Sensor>) {
    && |sensors| == Max0(n)
    && (forall i :: 0 <= i < |sensors| ==> sensors[i].id == SensorId(i) && sensors[i].location == ZoneLabel(i))
    && (forall i :: 0 <= i < |sensors| && i < |SensorTypes| ==> sensors[i].sensorType == SensorTypes[i])
    && (forall i :: |SensorTypes| <= i < |sensors| ==>
          i - |SensorTypes| < |picks| && sensors[i].sensorType == SensorTypes[picks[i - |SensorTypes|]])
  }

  /** The type the roster gives index k: the k-th fixed type, and from the
      end of the type list on, the type the (k - 9)-th pick names. */
  function TypeAt(k: nat, picks: seq<TypeIndex>): string
    requires k < |SensorTypes| || k - |SensorTypes| < |picks|
  {
    if k < |SensorTypes| then SensorTypes[k] else SensorTypes[picks[k - |SensorTypes|]]
  }

  /** A list whose entry k is the sensor of index k, with the type TypeAt
      gives it, is the roster for n once it has max(n, 0) entries. */
  lemma EntriesFormRoster(n: int, picks: seq<TypeIndex>, sensors: seq<Sensor>)
    requires n - |SensorTypes| <= |picks| && |sensors| == Max0(n)
    requires forall k :: 0 <= k < |sensors| ==> sensors[k] == Sensor(SensorId(k), TypeAt(k, picks), ZoneLabel(k))
    ensures IsRoster(n, picks, sensors)
  {
  }

  /** Builds the sensor roster for `numSensors` requested sensors. Each
      random.choice over the type list is read from `picks`, in order. */
  method CreateSensors(numSensors: int, picks: seq<TypeIndex>) returns (sensors: seq<Sensor>)
    requires numSensors - |SensorTypes| <= |picks|
    ensures IsRoster(numSensors, picks, sensors)
  {
    sensors := [];
    // One sensor per fixed type, in order, until the count is reached.
    var i := 0;
    while i < |SensorTypes|
      invariant 0 <= i <= |SensorTypes| && i <= Max0(numSensors)
      invariant |sensors| == i
      invariant forall k :: 0 <= k < |sensors| ==> sensors[k] == Sensor(SensorId(k), TypeAt(k, picks), ZoneLabel(k))
    {
      if i >= numSensors {
        break;
      }
      sensors := sensors + [Sensor(SensorId(i), SensorTypes[i], ZoneLabel(i))];
      i := i + 1;
    }
    // Random types for every index from the length of the type list on.
    var j := |SensorTypes|;
    while j < numSensors
      invariant |SensorTypes| <= j
      invariant numSensors > |SensorTypes| ==> j <= numSensors
      invariant |sensors| == if numSensors <= |SensorTypes| then Max0(numSensors) else j
      invariant forall k :: 0 <= k < |sensors| ==> sensors[k] == Sensor(SensorId(k), TypeAt(k, picks), ZoneLabel(k))
    {
      var sensorType := SensorTypes[picks[j - |SensorTypes|]];
      sensors := sensors + [Sensor(SensorId(j), sensorType, ZoneLabel(j))];
      j := j + 1;
    }
    EntriesFormRoster(numSensors, picks, sensors);
  }

  /** IsRoster pins the roster down completely: for a given count and
      given picks there is exactly one. */
  lemma RosterUnique(n: int, picks: seq<TypeIndex>, s1: seq<Sensor>, s2: seq<Sensor>)
    requires IsRoster(n, picks, s1) && IsRoster(n, picks, s2)
    ensures s1 == s2
  {
  }

  /** Distinct roster indices give distinct ids. */
  lemma SensorIdInjective(i: nat, j: nat)
    ensures SensorId(i) == SensorId(j) ==> i == j
  {
    Decimal.PrefixCancel("sensor-", Decimal.NatToString(i + 1), Decimal.NatToString(j + 1));
    Decimal.NatToStringInjective(i + 1, j + 1);
  }

  /** Every index lands in one of the three zones, cycling zone-1, zone-2, zone-3. */
  lemma ZoneLabelCycles(i: nat)
    ensures ZoneLabel(i) == (if i % 3 == 0 then "zone-1" else if i % 3 == 1 then "zone-2" else "zone-3")
    ensures ZoneLabel(i) in Zones
    ensures ZoneLabel(i) == ZoneLabel(i % 3)
  {
    var z := i % 3 + 1;
    assert Decimal.NatToString(z) == [Decimal.DigitChar(z)];
    assert z == 1 ==> ZoneLabel(i) == "zone-1";
    assert z == 2 ==> ZoneLabel(i) == "zone-2";
    assert z == 3 ==> ZoneLabel(i) == "zone-3";
  }

  /** The ids of a roster are pairwise distinct. */
  lemma RosterIdsDistinct(n: int, picks: seq<TypeIndex>, sensors: seq<Sensor>)
    requires IsRoster(n, picks, sensors)
    ensures forall i, j :: 0 <= i < j < |sensors| ==> sensors[i].id != sensors[j].id
  {
    forall i, j | 0 <= i < j < |sensors|
      ensures sensors[i].id != sensors[j].id
    {
      SensorIdInjective(i, j);
    }
  }

  /** Every sensor's location is zone-1, zone-2 or zone-3. */
  lemma RosterZones(n: int, picks: seq<TypeIndex>, sensors: seq<Sensor>)
    requires IsRoster(n, picks, sensors)
    ensures forall i :: 0 <= i < |sensors| ==> sensors[i].location in Zones
  {
    forall i | 0 <= i < |sensors|
      ensures sensors[i].location in Zones
    {
      ZoneLabelCycles(i);
    }
  }

  /** Every sensor's type, random fill included, is one of the nine fixed
      types, so none of them takes the generic reading branch. */
  lemma RosterTypesKnown(n: int, picks: seq<TypeIndex>, sensors: seq<Sensor>)
    requires IsRoster(n, picks, sensors)
    ensures forall i :: 0 <= i < |sensors| ==> sensors[i].sensorType in SensorTypes
    ensures forall i :: 0 <= i < |sensors| ==> !KindOf(sensors[i].sensorType).Generic?
  {
  }

  /** The first min(n, 9) sensors carry the fixed types once each, in
      order; when n >= 9 every fixed type is present. */
  lemma RosterCoreTypes(n: int, picks: seq<TypeIndex>, sensors: seq<Sensor>)
    requires IsRoster(n, picks, sensors)
    ensures forall i, j :: 0 <= i < j < |sensors| && j < |SensorTypes| ==>
              sensors[i].sensorType != sensors[j].sensorType
    ensures n >= |SensorTypes| ==>
              forall t :: t in SensorTypes ==> exists i :: 0 <= i < |SensorTypes| && sensors[i].sensorType == t
  {
  }
}
