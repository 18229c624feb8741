/** The broker topic path a reading is published under, and the
    '/'-separated segments a subscriber reads back out of it. */
module Topics {
  import Decimal

  const Sep: char := '/'

  /** Splits s at every separator, as Python's str.split(sep) does:
      n separators give n + 1 parts, empty parts included. */
  function Split(s: string, sep: char): (parts: seq<string>)
    ensures |parts| >= 1
    decreases |s|
  {
    if |s| == 0 then [""]
    else if s[0] == sep then [""] + Split(s[1..], sep)
    else
      var rest := Split(s[1..], sep);
      [[s[0]] + rest[0]] + rest[1..]
  }

  lemma {:induction false} SplitNoSep(a: string, sep: char)
    requires sep !in a
    ensures Split(a, sep) == [a]
    decreases |a|
  {
    if |a| > 0 {
      SplitNoSep(a[1..], sep);
      assert [a[0]] + a[1..] == a;
    }
  }

  /** A separator-free head and one separator peel off as one segment. */
  lemma {:induction false} SplitCons(a: string, sep: char, b: string)
    requires sep !in a
    ensures Split(a + [sep] + b, sep) == [a] + Split(b, sep)
    decreases |a|
  {
    var s := a + [sep] + b;
    if |a| == 0 {
      assert s == [sep] + b;
      assert s[1..] == b;
    } else {
      assert s[0] == a[0];
      assert s[1..] == a[1..] + [sep] + b;
      SplitCons(a[1..], sep, b);
      assert [a[0]] + a[1..] == a;
    }
  }

  /** Glues the parts together with one separator between neighbours
      (Python's sep.join(parts)); Split undoes it. */
  function Join(parts: seq<string>, sep: char): string
    requires |parts| >= 1
    decreases |parts|
  {
    if |parts| == 1 then parts[0] else parts[0] + [sep] + Join(parts[1..], sep)
  }

  lemma {:induction false} SplitJoin(parts: seq<string>, sep: char)
    requires |parts| >= 1
    requires forall k :: 0 <= k < |parts| ==> sep !in parts[k]
    ensures Split(Join(parts, sep), sep) == parts
    decreases |parts|
  {
    if |parts| == 1 {
      SplitNoSep(parts[0], sep);
    } else {
      SplitJoin(parts[1..], sep);
      SplitCons(parts[0], sep, Join(parts[1..], sep));
      assert [parts[0]] + parts[1..] == parts;
    }
  }

  /** iot/gateway/{gateway_id}/sensors/{sensor_type}/{sensor_id} */
  function Topic(gatewayId: string, sensorType: string, sensorId: string): (t: string)
    ensures |t| == 22 + |gatewayId| + |sensorType| + |sensorId|
    ensures t[..12] == "iot/gateway/" && t[12..12 + |gatewayId|] == gatewayId
    ensures t[|t| - |sensorId| - 1..] == [Sep] + sensorId
  {
    "iot/gateway/" + gatewayId + "/sensors/" + sensorType + "/" + sensorId
  }

  /** The topic is the six path segments joined by '/'. */
  lemma TopicIsJoin(gatewayId: string, sensorType: string, sensorId: string)
    ensures Topic(gatewayId, sensorType, sensorId)
         == Join(["iot", "gateway", gatewayId, "sensors", sensorType, sensorId], Sep)
  {
    var parts := ["iot", "gateway", gatewayId, "sensors", sensorType, sensorId];
    assert parts[1..][1..][1..][1..][1..] == [sensorId];
    assert Join(parts[1..][1..][1..][1..], Sep) == sensorType + "/" + sensorId;
    assert Join(parts[1..][1..][1..], Sep) == "sensors/" + sensorType + "/" + sensorId;
    assert Join(parts[1..][1..], Sep) == gatewayId + "/sensors/" + sensorType + "/" + sensorId;
  }

  /** A subscriber that splits the topic at '/' recovers the gateway id, the
      sensor type and the sensor id, provided none of them holds a '/'. */
  lemma TopicSegments(gatewayId: string, sensorType: string, sensorId: string)
    requires Sep !in gatewayId && Sep !in sensorType && Sep !in sensorId
    ensures Split(Topic(gatewayId, sensorType, sensorId), Sep)
         == ["iot", "gateway", gatewayId, "sensors", sensorType, sensorId]
  {
    var parts := ["iot", "gateway", gatewayId, "sensors", sensorType, sensorId];
    TopicIsJoin(gatewayId, sensorType, sensorId);
    assert Sep !in "iot" && Sep !in "gateway" && Sep !in "sensors";
    SplitJoin(parts, Sep);
  }

  /** Under one gateway, whatever its id, the topic determines the sensor
      type and the sensor id, provided the types hold no '/'. */
  lemma TopicInjective(gatewayId: string, t1: string, id1: string, t2: string, id2: string)
    requires Sep !in t1 && Sep !in t2
    requires Topic(gatewayId, t1, id1) == Topic(gatewayId, t2, id2)
    ensures t1 == t2 && id1 == id2
  {
    var p := "iot/gateway/" + gatewayId + "/sensors/";
    assert Topic(gatewayId, t1, id1) == p + (t1 + [Sep] + id1);
    assert Topic(gatewayId, t2, id2) == p + (t2 + [Sep] + id2);
    Decimal.PrefixCancel(p, t1 + [Sep] + id1, t2 + [Sep] + id2);
    SplitCons(t1, Sep, id1);
    SplitCons(t2, Sep, id2);
    assert [t1] + Split(id1, Sep) == [t2] + Split(id2, Sep);
    assert t1 == ([t1] + Split(id1, Sep))[0];
    assert t1 + [Sep] + id1 == (t1 + [Sep]) + id1;
    assert t2 + [Sep] + id2 == (t1 + [Sep]) + id2;
    Decimal.PrefixCancel(t1 + [Sep], id1, id2);
  }
}
