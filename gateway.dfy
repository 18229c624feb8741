/** The gateway simulator object: its fixed roster, the `connected` flag
    the broker client's callbacks maintain, the publish tick and disconnect.
    What the gateway hands to the broker client is recorded, in order, in
    the ghost trace `Sent`. */
module Gateway {
  import opened Sensors
  import opened Roster
  import opened Topics

  /** QoS level of every publish: at-least-once delivery. */
  const DEFAULT_QOS: nat := 1

  /** The JSON envelope of one publish, before serialisation. */
  datatype Message = Message(
    gatewayId: string,
    sensorId: string,
    sensorType: string,
    location: string,
    reading: Reading)

  /** A request the gateway hands to the broker client. `accepted` is the
      client's verdict on a publish (rc == MQTT_ERR_SUCCESS); the gateway
      only logs it. */
  datatype BrokerRequest =
    | Publish(topic: string, message: Message, qos: nat, accepted: bool)
    | DisconnectRequest

  /** The topic a sensor's readings go to. */
  function SensorTopic(gatewayId: string, sensor: Sensor): string {
    Topic(gatewayId, sensor.sensorType, sensor.id)
  }

  /** The publish the tick makes for one sensor under one draw. */
  function PublishFor(gatewayId: string, sensor: Sensor, draw: Draw): (r: BrokerRequest)
    ensures r.Publish? && r.qos == 1 && r.accepted == draw.accepted
    ensures r.topic == Topic(gatewayId, sensor.sensorType, sensor.id)
    ensures r.message.gatewayId == gatewayId && r.message.sensorId == sensor.id
    ensures r.message.sensorType == sensor.sensorType && r.message.location == sensor.location
    ensures r.message.reading.unit == ReadingUnit(sensor.sensorType)
    ensures r.message.reading.timestamp == draw.timestamp
  {
    var reading := GenerateReading(sensor, draw);
    var message := Message(gatewayId, sensor.id, sensor.sensorType, sensor.location, reading);
    Publish(SensorTopic(gatewayId, sensor), message, DEFAULT_QOS, draw.accepted)
  }

  /** The requests one connected tick hands to the broker client: one
      publish per roster entry, in roster order. */
  function TickRequests(gatewayId: string, sensors: seq<Sensor>, draws: seq<Draw>): (rs: seq<BrokerRequest>)
    requires |draws| == |sensors|
    ensures |rs| == |sensors|
    ensures forall k :: 0 <= k < |rs| ==> rs[k].Publish?
    decreases |sensors|
  {
    if |sensors| == 0 then []
    else
      var n := |sensors| - 1;
      TickRequests(gatewayId, sensors[..n], draws[..n]) + [PublishFor(gatewayId, sensors[n], draws[n])]
  }

  /** The k-th request of a tick is the k-th sensor's publish under the
      k-th draw. */
  lemma {:induction false} TickRequestsEach(gatewayId: string, sensors: seq<Sensor>, draws: seq<Draw>)
    requires |draws| == |sensors|
    ensures forall k :: 0 <= k < |sensors| ==>
              TickRequests(gatewayId, sensors, draws)[k] == PublishFor(gatewayId, sensors[k], draws[k])
    decreases |sensors|
  {
    if |sensors| > 0 {
      var n := |sensors| - 1;
      TickRequestsEach(gatewayId, sensors[..n], draws[..n]);
      forall k | 0 <= k < n
        ensures sensors[..n][k] == sensors[k] && draws[..n][k] == draws[k]
      {
      }
    }
  }

  /** A tick over the first k + 1 sensors is the tick over the first k
      followed by the (k + 1)-th sensor's publish. */
  lemma TickRequestsStep(gatewayId: string, sensors: seq<Sensor>, draws: seq<Draw>, k: nat)
    requires |draws| == |sensors| && k < |sensors|
    ensures TickRequests(gatewayId, sensors[..k + 1], draws[..k + 1])
            == TickRequests(gatewayId, sensors[..k], draws[..k]) + [PublishFor(gatewayId, sensors[k], draws[k])]
  {
    assert sensors[..k + 1][..k] == sensors[..k];
    assert draws[..k + 1][..k] == draws[..k];
  }

  /** The k-th publish of a tick goes to iot/gateway/{gateway_id}/sensors/{type}/{id}
      of the k-th sensor, and its envelope names the gateway and that sensor;
      its reading carries the unit of the sensor's type and the draw's
      timestamp, and it asks for QoS 1. */
  lemma TickEnvelope(gatewayId: string, sensors: seq<Sensor>, draws: seq<Draw>, k: nat)
    requires |draws| == |sensors| && k < |sensors|
    ensures var r := TickRequests(gatewayId, sensors, draws)[k];
      && r.Publish?
      && r.topic == "iot/gateway/" + gatewayId + "/sensors/" + sensors[k].sensorType + "/" + sensors[k].id
      && r.message.gatewayId == gatewayId
      && r.message.sensorId == sensors[k].id
      && r.message.sensorType == sensors[k].sensorType
      && r.message.location == sensors[k].location
      && r.message.reading.unit == ReadingUnit(sensors[k].sensorType)
      && r.message.reading.timestamp == draws[k].timestamp
      && r.qos == 1
  {
    TickRequestsEach(gatewayId, sensors, draws);
  }

  /** The broker's verdicts never change what a tick publishes. */
  lemma TickIgnoresVerdicts(gatewayId: string, sensors: seq<Sensor>, draws: seq<Draw>, draws': seq<Draw>)
    requires |draws| == |sensors| == |draws'|
    requires forall k :: 0 <= k < |draws| ==>
               draws[k].timestamp == draws'[k].timestamp && draws[k].hour == draws'[k].hour
               && draws[k].sample == draws'[k].sample
    ensures forall k :: 0 <= k < |sensors| ==>
              TickRequests(gatewayId, sensors, draws)[k].topic == TickRequests(gatewayId, sensors, draws')[k].topic
              && TickRequests(gatewayId, sensors, draws)[k].message == TickRequests(gatewayId, sensors, draws')[k].message
  {
    TickRequestsEach(gatewayId, sensors, draws);
    TickRequestsEach(gatewayId, sensors, draws');
  }

  /** No sensor id holds a '/': it is "sensor-" followed by digits. */
  lemma SensorIdHasNoSep(i: nat)
    ensures Sep !in SensorId(i)
  {
  }

  /** No type tag holds a '/'. */
  lemma TypeHasNoSep(t: TypeIndex)
    ensures Sep !in SensorTypes[t]
  {
  }

  /** No roster entry's type or id holds a '/'. */
  lemma RosterHasNoSep(n: int, picks: seq<TypeIndex>, sensors: seq<Sensor>, k: nat)
    requires IsRoster(n, picks, sensors) && k < |sensors|
    ensures Sep !in sensors[k].sensorType && Sep !in sensors[k].id
  {
    SensorIdHasNoSep(k);
    if k < |SensorTypes| {
      TypeHasNoSep(k);
    } else {
      TypeHasNoSep(picks[k - |SensorTypes|]);
    }
  }

  /** For a roster under a gateway id without '/', every topic of a tick
      splits back into its six segments. */
  lemma TickTopicsParse(gatewayId: string, n: int, picks: seq<TypeIndex>, sensors: seq<Sensor>, draws: seq<Draw>)
    requires IsRoster(n, picks, sensors) && |draws| == |sensors|
    requires Sep !in gatewayId
    ensures forall k :: 0 <= k < |sensors| ==>
              Split(TickRequests(gatewayId, sensors, draws)[k].topic, Sep)
              == ["iot", "gateway", gatewayId, "sensors", sensors[k].sensorType, sensors[k].id]
  {
    var rs := TickRequests(gatewayId, sensors, draws);
    TickRequestsEach(gatewayId, sensors, draws);
    forall k | 0 <= k < |sensors|
      ensures Split(rs[k].topic, Sep) == ["iot", "gateway", gatewayId, "sensors", sensors[k].sensorType, sensors[k].id]
    {
      assert rs[k].topic == Topic(gatewayId, sensors[k].sensorType, sensors[k].id);
      RosterHasNoSep(n, picks, sensors, k);
      TopicSegments(gatewayId, sensors[k].sensorType, sensors[k].id);
    }
  }

  /** For a roster, under any gateway id, no two sensors share a topic
      within a tick. */
  lemma TickTopicsDistinct(gatewayId: string, n: int, picks: seq<TypeIndex>, sensors: seq<Sensor>, draws: seq<Draw>)
    requires IsRoster(n, picks, sensors) && |draws| == |sensors|
    ensures forall i, j :: 0 <= i < j < |sensors| ==>
              TickRequests(gatewayId, sensors, draws)[i].topic != TickRequests(gatewayId, sensors, draws)[j].topic
  {
    var rs := TickRequests(gatewayId, sensors, draws);
    TickRequestsEach(gatewayId, sensors, draws);
    RosterIdsDistinct(n, picks, sensors);
    forall i, j | 0 <= i < j < |sensors|
      ensures rs[i].topic != rs[j].topic
    {
      assert rs[i].topic == Topic(gatewayId, sensors[i].sensorType, sensors[i].id);
      assert rs[j].topic == Topic(gatewayId, sensors[j].sensorType, sensors[j].id);
      RosterHasNoSep(n, picks, sensors, i);
      RosterHasNoSep(n, picks, sensors, j);
      if rs[i].topic == rs[j].topic {
        TopicInjective(gatewayId, sensors[i].sensorType, sensors[i].id, sensors[j].sensorType, sensors[j].id);
      }
    }
  }

  /** From index `from` on, the trace holds only publishes, no two of them
      to the same topic. */
  ghost predicate DistinctTopicsFrom(trace: seq<BrokerRequest>, from: nat) {
    forall i, j :: from <= i < j < |trace| ==>
      trace[i].Publish? && trace[j].Publish? && trace[i].topic != trace[j].topic
  }

  /** Appended after any earlier trace, a tick's publishes still have
      pairwise distinct topics. */
  lemma AppendedTickTopicsDistinct(before: seq<BrokerRequest>, gatewayId: string, n: int, picks: seq<TypeIndex>,
                                   sensors: seq<Sensor>, draws: seq<Draw>)
    requires IsRoster(n, picks, sensors) && |draws| == |sensors|
    ensures DistinctTopicsFrom(before + TickRequests(gatewayId, sensors, draws), |before|)
  {
    var rs := TickRequests(gatewayId, sensors, draws);
    var after := before + rs;
    TickRequestsEach(gatewayId, sensors, draws);
    TickTopicsDistinct(gatewayId, n, picks, sensors, draws);
    forall i, j | |before| <= i < j < |after|
      ensures after[i].Publish? && after[j].Publish? && after[i].topic != after[j].topic
    {
      assert after[i] == rs[i - |before|] && after[j] == rs[j - |before|];
    }
  }

  /** The first three roster entries, whatever the picks. */
  lemma FirstThreeSensors(n: int, picks: seq<TypeIndex>, sensors: seq<Sensor>)
    requires IsRoster(n, picks, sensors) && n >= 3
    ensures sensors[0] == Sensor("sensor-1", "temperature", "zone-1")
    ensures sensors[1] == Sensor("sensor-2", "humidity", "zone-2")
    ensures sensors[2] == Sensor("sensor-3", "voltage", "zone-3")
  {
  }

  /** A three-sensor roster under gateway "gw-test" publishes exactly three
      messages, in order, to the temperature, humidity and voltage topics
      of sensor-1, sensor-2 and sensor-3, each naming gateway "gw-test". */
  lemma ThreeSensorTick(sensors: seq<Sensor>, draws: seq<Draw>)
    requires IsRoster(3, [], sensors) && |draws| == 3
    ensures |TickRequests("gw-test", sensors, draws)| == 3
    ensures TickRequests("gw-test", sensors, draws)[0].topic == Topic("gw-test", "temperature", "sensor-1")
    ensures TickRequests("gw-test", sensors, draws)[1].topic == Topic("gw-test", "humidity", "sensor-2")
    ensures TickRequests("gw-test", sensors, draws)[2].topic == Topic("gw-test", "voltage", "sensor-3")
    ensures forall k :: 0 <= k < 3 ==> TickRequests("gw-test", sensors, draws)[k].message.gatewayId == "gw-test"
  {
    FirstThreeSensors(3, [], sensors);
    TickRequestsEach("gw-test", sensors, draws);
  }

  /** What uuid.uuid4().hex[:8] yields: eight lower-case hex digits. */
  predicate IsUuidHex(s: string) {
    |s| == 8 && forall c :: c in s ==> c in "0123456789abcdef"
  }

  /** The generated gateway id "gateway-" + eight hex digits holds no '/',
      so the topics under it split into their six segments. */
  lemma GeneratedIdHasNoSep(uuidHex: string)
    requires IsUuidHex(uuidHex)
    ensures Sep !in "gateway-" + uuidHex
  {
    assert Sep !in "gateway-";
    assert Sep !in "0123456789abcdef";
  }

  class GatewaySimulator {
    const gatewayId: string
    const numSensors: int
    /** The roster, fixed at construction. */
    const sensors: seq<Sensor>
    /** The random type picks the roster was built with. */
    ghost const picks: seq<TypeIndex>
    /** Set by the on_connect callback, cleared by on_disconnect. */
    var connected: bool
    /** Every request handed to the broker client, oldest first. */
    ghost var Sent: seq<BrokerRequest>

    /** The roster is the one the roster builder made for `numSensors` and
        `picks`. It reads only constants, so it holds from construction on. */
    ghost predicate Valid() {
      IsRoster(numSensors, picks, sensors)
    }

    /** A new, disconnected simulator. The gateway id is the one requested,
        or, when none is (empty), "gateway-" followed by `uuidHex`, the first
        eight hex digits of a fresh uuid4. */
    constructor (requestedId: string, uuidHex: string, numSensors: int, picks: seq<TypeIndex>)
      requires IsUuidHex(uuidHex)
      requires numSensors - |SensorTypes| <= |picks|
      ensures gatewayId == (if requestedId != "" then requestedId else "gateway-" + uuidHex)
      ensures requestedId == "" ==> Sep !in gatewayId
      ensures this.numSensors == numSensors && this.picks == picks
      ensures Valid()
      ensures !connected && Sent == []
    {
      gatewayId := if requestedId != "" then requestedId else "gateway-" + uuidHex;
      this.numSensors := numSensors;
      this.picks := picks;
      GeneratedIdHasNoSep(uuidHex);
      var roster := CreateSensors(numSensors, picks);
      sensors := roster;
      connected := false;
      Sent := [];
    }

    /** The on_connect callback: result code 0 marks the gateway connected;
        any other code is only logged. */
    method OnConnect(rc: int)
      modifies this`connected
      ensures connected == (rc == 0 || old(connected))
    {
      if rc == 0 {
        connected := true;
      }
    }

    /** The on_disconnect callback: solicited or not, the gateway is no
        longer connected. */
    method OnDisconnect(rc: int)
      modifies this`connected
      ensures !connected
    {
      connected := false;
    }

    /** One publish tick. Disconnected: reports failure and publishes
        nothing. Connected: publishes one reading per sensor in roster order
        and reports success whatever the broker's verdicts. */
    method PublishSensorData(draws: seq<Draw>) returns (ok: bool)
      requires |draws| == |sensors|
      modifies this`Sent
      ensures ok == connected
      ensures Sent == old(Sent) + (if ok then TickRequests(gatewayId, sensors, draws) else [])
      ensures Valid() ==> DistinctTopicsFrom(Sent, |old(Sent)|)
    {
      if !connected {
        return false;
      }
      for k := 0 to |sensors|
        invariant Sent == old(Sent) + TickRequests(gatewayId, sensors[..k], draws[..k])
      {
        var sensor := sensors[k];
        var reading := GenerateReading(sensor, draws[k]);
        var message := Message(gatewayId, sensor.id, sensor.sensorType, sensor.location, reading);
        var topic := Topic(gatewayId, sensor.sensorType, sensor.id);
        Sent := Sent + [Publish(topic, message, DEFAULT_QOS, draws[k].accepted)];
        TickRequestsStep(gatewayId, sensors, draws, k);
      }
      assert sensors[..|sensors|] == sensors && draws[..|draws|] == draws;
      if Valid() {
        AppendedTickTopicsDistinct(old(Sent), gatewayId, numSensors, picks, sensors, draws);
      }
      return true;
    }

    /** Disconnect: only when connected does it hand the broker client a
        disconnect request; otherwise it does nothing. The flag itself is
        cleared by the on_disconnect callback. */
    method Disconnect()
      modifies this`Sent
      ensures Sent == old(Sent) + (if connected then [DisconnectRequest] else [])
    {
      if connected {
        Sent := Sent + [DisconnectRequest];
      }
    }
  }

  /** Once the broker drops the connection, a tick fails and publishes
      nothing, and a disconnect does nothing: the simulator does not
      reconnect on its own. */
  method TickAfterDrop(g: GatewaySimulator, rc: int, draws: seq<Draw>) returns (ok: bool)
    requires |draws| == |g.sensors|
    modifies g
    ensures !ok && !g.connected
    ensures g.Sent == old(g.Sent)
  {
    g.OnDisconnect(rc);
    ok := g.PublishSensorData(draws);
    g.Disconnect();
  }
}
