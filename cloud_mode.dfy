/** Cloud mode: an MQTT bridge to Home Assistant plus an InfluxDB writer.
    Inbound commands drive the relays and the lock, an unlocked lock relocks
    itself after three seconds, telemetry goes out every five seconds, and
    every (re)connection subscribes to the command topics and announces the
    devices. Network operations are entries of an event log; whether a
    connection or a database write succeeds is an input. */
module CloudMode {
  import opened Wrappers
  import opened Hardware
  import opened ArduinoString
  import Ldr
  import opened Sequences

  // ---------------------------------------------------------------------
  // The millisecond clock
  // ---------------------------------------------------------------------

  const Modulus: int := 0x1_0000_0000

  /** A millis() value: an unsigned 32-bit count that wraps around. */
  type Millis = x: int | 0 <= x < 0x1_0000_0000

  /** How long an unlocked lock stays open, and the telemetry period. */
  const RelockMs: int := 3000
  const IntervalMs: int := 5000

  /** `now - since` in unsigned 32-bit arithmetic. */
  function Elapsed(now: Millis, since: Millis): (d: Millis)
    ensures since <= now ==> d == now - since
    ensures now < since ==> d == now - since + Modulus
  {
    (now - since) % Modulus
  }

  /** Across a wrap of the counter the unsigned difference is still the
      true elapsed time, as long as that is below 2^32 ms. */
  lemma ElapsedAcrossWrap(t0: nat, d: nat)
    requires d < Modulus
    ensures Elapsed((t0 + d) % Modulus, t0 % Modulus) == d
  {
    var a := t0 % Modulus;
    var q := t0 / Modulus;
    assert t0 == q * Modulus + a;
    assert t0 + d == q * Modulus + (a + d);
    if a + d < Modulus {
      ModOfShift(q, a + d);
    } else {
      assert t0 + d == (q + 1) * Modulus + (a + d - Modulus);
      ModOfShift(q + 1, a + d - Modulus);
    }
  }

  lemma ModOfShift(q: int, r: int)
    requires 0 <= r < Modulus
    ensures (q * Modulus + r) % Modulus == r
  {
  }

  /** The relock test of loopModoCloud: the lock is open and strictly more
      than RelockMs have passed since it was opened. */
  predicate RelockDue(open: bool, timer: Millis, now: Millis) {
    open && Elapsed(now, timer) > RelockMs
  }

  /** The telemetry gate: strictly more than IntervalMs since the last cycle. */
  predicate TelemetryDue(now: Millis, last: Millis) {
    Elapsed(now, last) > IntervalMs
  }

  /** Opened at true time t0 and checked at t0 + d (d < 2^32 ms), the lock
      is due to relock exactly when more than three seconds have passed,
      whether or not the counter wrapped in between. */
  lemma RelockTiming(t0: nat, d: nat)
    requires d < Modulus
    ensures RelockDue(true, t0 % Modulus, (t0 + d) % Modulus) <==> d > RelockMs
  {
    ElapsedAcrossWrap(t0, d);
  }

  /** Likewise the telemetry gate opens exactly when more than five seconds
      have passed since the last cycle. */
  lemma TelemetryTiming(t0: nat, d: nat)
    requires d < Modulus
    ensures TelemetryDue((t0 + d) % Modulus, t0 % Modulus) <==> d > IntervalMs
  {
    ElapsedAcrossWrap(t0, d);
  }

  // ---------------------------------------------------------------------
  // Topics, documents and events
  // ---------------------------------------------------------------------

  const LockSetTopic := "orion/lock/set"
  const LockStateTopic := "orion/lock/state"
  const GpsStateTopic := "orion/gps/state"
  const SensorsStateTopic := "orion/sensors/state"

  function RelaySetTopic(n: int): string {
    "orion/relay" + DecimalString(n) + "/set"
  }

  function RelayStateTopic(n: int): string {
    "orion/relay" + DecimalString(n) + "/state"
  }

  /** A JSON value; documents are key/value maps. Serialisation and buffer
      sizes are not modelled. */
  datatype Value = Str(s: string) | Int(i: int) | Num(r: real) | Obj(members: map<string, Value>)

  type Document = map<string, Value>

  datatype Payload = Text(text: string) | Json(doc: Document)

  /** One network operation, in the order performed. */
  datatype Event =
    | ConnectAttempt(ok: bool)
    | Subscribe(topic: string)
    | Publish(topic: string, payload: Payload, retained: bool)
    | WritePoint(measurement: string, tags: map<string, string>, fields: map<string, Value>, ok: bool)

  /** An inbound MQTT message. */
  datatype Message = Message(topic: string, payload: string)

  // ---------------------------------------------------------------------
  // Inbound commands (callback)
  // ---------------------------------------------------------------------

  datatype Target = RelayCommand(n: RelayId) | LockCommand | NoTarget

  /** The suffix tests of callback, in their order. */
  function Route(topic: string): Target {
    if EndsWith(topic, "relay1/set") then RelayCommand(1)
    else if EndsWith(topic, "relay2/set") then RelayCommand(2)
    else if EndsWith(topic, "relay3/set") then RelayCommand(3)
    else if EndsWith(topic, "relay4/set") then RelayCommand(4)
    else if EndsWith(topic, "lock/set") then LockCommand
    else NoTarget
  }

  /** What one inbound message does: pin writes, published events, and
      whether it arms the relock timer. */
  datatype Effect = Effect(actions: seq<Action>, events: seq<Event>, arm: bool)

  /** callback for one message. The topic arrives as a C string, and the
      payload is compared with String == and echoed through c_str(), so
      both end at their first NUL character. */
  function CallbackEffect(topic: string, msg: string): Effect {
    match Route(CStr(topic))
    case RelayCommand(n) =>
      Effect([DigitalWrite(Relay(n), Equals(msg, "ON"))], [Publish(RelayStateTopic(n), Text(CStr(msg)), false)], false)
    case LockCommand =>
      if Equals(msg, "UNLOCK") then
        Effect([DigitalWrite(Lock, true)], [Publish(LockStateTopic, Text("UNLOCKED"), false)], true)
      else
        Effect([DigitalWrite(Lock, false)], [Publish(LockStateTopic, Text("LOCKED"), false)], false)
    case NoTarget => Effect([], [], false)
  }

  /** A relay's command topic reaches that relay: its own suffix matches
      and the earlier relay suffixes differ in the digit. */
  lemma RelaySetTopicRoutes(n: RelayId)
    ensures Route(RelaySetTopic(n)) == RelayCommand(n)
  {
    if n == 1 {
      RelayOneRoutes(RelaySetTopic(n), n);
    } else if n == 2 {
      RelayTwoRoutes(RelaySetTopic(n), n);
    } else if n == 3 {
      RelayThreeRoutes(RelaySetTopic(n), n);
    } else {
      RelayFourRoutes(RelaySetTopic(n), n);
    }
  }

  lemma RelayOneRoutes(c: string, n: RelayId)
    requires n == 1 && c == RelaySetTopic(n)
    ensures Route(c) == RelayCommand(n)
  {
    RelayTopicsSpelled();
    assert c == "orion/relay1/set";
    assert c[6..] == "relay1/set";
  }

  lemma RelayTwoRoutes(c: string, n: RelayId)
    requires n == 2 && c == RelaySetTopic(n)
    ensures Route(c) == RelayCommand(n)
  {
    RelayTopicsSpelled();
    assert c == "orion/relay2/set";
    SuffixDiffers(c, "relay1/set", 5);
    assert c[6..] == "relay2/set";
  }

  lemma RelayThreeRoutes(c: string, n: RelayId)
    requires n == 3 && c == RelaySetTopic(n)
    ensures Route(c) == RelayCommand(n)
  {
    RelayTopicsSpelled();
    assert c == "orion/relay3/set";
    SuffixDiffers(c, "relay1/set", 5);
    SuffixDiffers(c, "relay2/set", 5);
    assert c[6..] == "relay3/set";
  }

  lemma RelayFourRoutes(c: string, n: RelayId)
    requires n == 4 && c == RelaySetTopic(n)
    ensures Route(c) == RelayCommand(n)
  {
    RelayTopicsSpelled();
    assert c == "orion/relay4/set";
    SuffixDiffers(c, "relay1/set", 5);
    SuffixDiffers(c, "relay2/set", 5);
    SuffixDiffers(c, "relay3/set", 5);
    assert c[6..] == "relay4/set";
  }

  /** The lock's command topic reaches the lock branch. */
  lemma LockSetTopicRoutes()
    ensures Route(LockSetTopic) == LockCommand
  {
    var c := LockSetTopic;
    SuffixDiffers(c, "relay1/set", 5);
    SuffixDiffers(c, "relay2/set", 5);
    SuffixDiffers(c, "relay3/set", 5);
    SuffixDiffers(c, "relay4/set", 5);
    assert c[6..] == "lock/set";
  }

  /** One differing character rules a suffix out. */
  lemma SuffixDiffers(t: string, suffix: string, i: nat)
    requires i < |suffix| <= |t| && t[|t| - |suffix| + i] != suffix[i]
    ensures !EndsWith(t, suffix)
  {
    assert t[|t| - |suffix|..][i] != suffix[i];
  }

  /** The topics the bridge publishes states on are not commands, so an
      echoed state never loops back into callback. */
  lemma StateTopicsAreNotCommands(n: int)
    ensures Route(RelayStateTopic(n)) == NoTarget
    ensures Route(LockStateTopic) == NoTarget
    ensures Route(GpsStateTopic) == NoTarget && Route(SensorsStateTopic) == NoTarget
  {
    var t := RelayStateTopic(n);
    assert t[|t| - 1] == 'e';
    NotACommand(t);
    NotACommand(LockStateTopic);
    NotACommand(GpsStateTopic);
    NotACommand(SensorsStateTopic);
  }

  /** Every command suffix ends in 't', so a topic ending otherwise (as
      every ".../state" topic does) is no command. */
  lemma NotACommand(topic: string)
    requires |topic| > 0 && topic[|topic| - 1] != 't'
    ensures Route(topic) == NoTarget
  {
    var last := topic[|topic| - 1];
    assert !EndsWith(topic, "relay1/set") by { assert "relay1/set"[9] == 't'; }
    assert !EndsWith(topic, "relay2/set") by { assert "relay2/set"[9] == 't'; }
    assert !EndsWith(topic, "relay3/set") by { assert "relay3/set"[9] == 't'; }
    assert !EndsWith(topic, "relay4/set") by { assert "relay4/set"[9] == 't'; }
    assert !EndsWith(topic, "lock/set") by { assert "lock/set"[7] == 't'; }
  }

  /** The relay topics spelled out, as callback and reconnect write them. */
  lemma RelayTopicsSpelled()
    ensures RelaySetTopic(1) == "orion/relay1/set" && RelayStateTopic(1) == "orion/relay1/state"
    ensures RelaySetTopic(2) == "orion/relay2/set" && RelayStateTopic(2) == "orion/relay2/state"
    ensures RelaySetTopic(3) == "orion/relay3/set" && RelayStateTopic(3) == "orion/relay3/state"
    ensures RelaySetTopic(4) == "orion/relay4/set" && RelayStateTopic(4) == "orion/relay4/state"
  {
    assert DecimalString(1) == "1" && DecimalString(2) == "2";
    assert DecimalString(3) == "3" && DecimalString(4) == "4";
  }

  /** A relay message drives that relay high exactly when the payload's
      text up to its first NUL is "ON", changes no other output, and echoes
      that text. */
  lemma RelayMessage(topic: string, msg: string, l: Levels, n: RelayId, other: Output)
    requires l.WellFormed() && Route(CStr(topic)) == RelayCommand(n)
    ensures var e := CallbackEffect(topic, msg);
      && Run(l, e.actions).Level(Relay(n)) == (CStr(msg) == "ON")
      && (other != Relay(n) ==> Run(l, e.actions).Level(other) == l.Level(other))
      && e.events == [Publish(RelayStateTopic(n), Text(CStr(msg)), false)]
      && !e.arm
  {
    EqualsComparesCStr(msg, "ON");
    var a := DigitalWrite(Relay(n), Equals(msg, "ON"));
    assert Run(l, [a]) == Run(Apply(l, a), []);
    ApplyWrite(l, Relay(n), Equals(msg, "ON"), other);
  }

  /** "UNLOCK" drives the lock high and arms the timer; any other payload
      drives it low and does not disarm a pending relock. */
  lemma LockMessage(topic: string, msg: string, l: Levels)
    requires l.WellFormed() && Route(CStr(topic)) == LockCommand
    ensures var e := CallbackEffect(topic, msg);
      && Run(l, e.actions).lock == (CStr(msg) == "UNLOCK")
      && e.arm == (CStr(msg) == "UNLOCK")
      && e.events == [Publish(LockStateTopic, Text(if CStr(msg) == "UNLOCK" then "UNLOCKED" else "LOCKED"), false)]
  {
    EqualsComparesCStr(msg, "UNLOCK");
    var a := DigitalWrite(Lock, Equals(msg, "UNLOCK"));
    assert Run(l, [a]) == Run(Apply(l, a), []);
  }

  /** Whatever follows a NUL in the payload is ignored: the relay or lock
      follows, and the echo carries, only the text before it. */
  lemma PayloadEndsAtNul(topic: string, text: string, tail: string)
    requires '\0' !in text
    ensures CallbackEffect(topic, text + ['\0'] + tail) == CallbackEffect(topic, text)
  {
    CStrStopsAtNul(text, tail);
    CStrOfPlain(text);
    EqualsComparesCStr(text + ['\0'] + tail, "ON");
    EqualsComparesCStr(text, "ON");
    EqualsComparesCStr(text + ['\0'] + tail, "UNLOCK");
    EqualsComparesCStr(text, "UNLOCK");
  }

  /** A topic matching none of the five suffixes does nothing. */
  lemma UnknownTopic(topic: string, msg: string)
    requires !EndsWith(CStr(topic), "relay1/set") && !EndsWith(CStr(topic), "relay2/set")
    requires !EndsWith(CStr(topic), "relay3/set") && !EndsWith(CStr(topic), "relay4/set")
    requires !EndsWith(CStr(topic), "lock/set")
    ensures CallbackEffect(topic, msg) == Effect([], [], false)
  {
  }

  // ---------------------------------------------------------------------
  // Telemetry (leerYPublicarSensores)
  // ---------------------------------------------------------------------

  /** One telemetry cycle's inputs: the DHT11 result, one ADC read for the
      percentage and one for the raw light value, and the GPS fix if the
      location is valid. */
  datatype SensorSample = SensorSample(dht: DhtReading, luxAdc: Ldr.AdcSample, rawAdc: Ldr.AdcSample, gps: Option<GpsFix>)

  const Measurement := "estado_sistema"

  /** The bridge's light sensor keeps the default calibration and reads once. */
  function Lux(s: SensorSample): int {
    Ldr.Percentage(s.luxAdc, Ldr.DefaultMinRaw, Ldr.DefaultMaxRaw)
  }

  /** The `orion/sensors/state` document. */
  function SensorsDocument(s: SensorSample): Document {
    map["temperature" := Int(s.dht.temperature), "humidity" := Int(s.dht.humidity), "illuminance" := Int(Lux(s))]
  }

  /** The `orion/gps/state` document. */
  function GpsDocument(fix: GpsFix): Document {
    map["latitude" := Num(fix.lat), "longitude" := Num(fix.lon), "gps_accuracy" := Int(10)]
  }

  /** The DHT fields of the database point: only on a good read. */
  function DhtFields(d: DhtReading): map<string, Value> {
    if d.status == 0 then map["temperatura" := Int(d.temperature), "humedad" := Int(d.humidity)] else map[]
  }

  function LightFields(s: SensorSample): map<string, Value> {
    map["luz_porcentaje" := Int(Lux(s)), "luz_raw" := Int(s.rawAdc)]
  }

  /** The GPS fields of the database point: only with a valid fix. */
  function GpsFields(gps: Option<GpsFix>): map<string, Value> {
    match gps
    case None => map[]
    case Some(f) => map["latitud" := Num(f.lat), "longitud" := Num(f.lon),
                        "altitud" := Num(f.altitudeM), "satelites" := Int(f.satellites)]
  }

  lemma GpsFieldsAdded(m: map<string, Value>, f: GpsFix)
    ensures m["latitud" := Num(f.lat)]["longitud" := Num(f.lon)]["altitud" := Num(f.altitudeM)]["satelites" := Int(f.satellites)]
      == m + GpsFields(Some(f))
  {
  }

  lemma PairAdded(m: map<string, Value>, k1: string, v1: Value, k2: string, v2: Value)
    ensures m[k1 := v1][k2 := v2] == m + map[k1 := v1, k2 := v2]
  {
  }

  /** The fields of the database point, built from an empty point. */
  function PointFields(s: SensorSample): map<string, Value> {
    DhtFields(s.dht) + LightFields(s) + GpsFields(s.gps)
  }

  /** The events of one telemetry cycle: the GPS state first when there is
      a fix, then the sensor state, then the database write. */
  function TelemetryEvents(s: SensorSample, tags: map<string, string>, writeOk: bool): seq<Event> {
    (if s.gps.Some? then [Publish(GpsStateTopic, Json(GpsDocument(s.gps.value)), false)] else [])
    + [Publish(SensorsStateTopic, Json(SensorsDocument(s)), false),
       WritePoint(Measurement, tags, PointFields(s), writeOk)]
  }

  /** Which fields reach the database: temperature and humidity only on a
      good DHT read, both light fields always, the four GPS fields only with
      a fix, and nothing else. */
  lemma PointFieldSelection(s: SensorSample)
    ensures var f := PointFields(s);
      && ("temperatura" in f <==> s.dht.status == 0)
      && ("humedad" in f <==> s.dht.status == 0)
      && "luz_porcentaje" in f && "luz_raw" in f
      && ("latitud" in f <==> s.gps.Some?) && ("longitud" in f <==> s.gps.Some?)
      && ("altitud" in f <==> s.gps.Some?) && ("satelites" in f <==> s.gps.Some?)
      && f.Keys <= {"temperatura", "humedad", "luz_porcentaje", "luz_raw", "latitud", "longitud", "altitud", "satelites"}
      && f["luz_raw"] == Int(s.rawAdc)
      && f["luz_porcentaje"].Int? && 0 <= f["luz_porcentaje"].i <= 100
  {
  }

  /** The MQTT sensor state carries all three values whatever the DHT read
      returned, while the database point drops the DHT values on a failed
      read: the two sinks disagree on a failed read. */
  lemma SinksDisagreeOnFailedRead(s: SensorSample)
    requires s.dht.status != 0
    ensures SensorsDocument(s).Keys == {"temperature", "humidity", "illuminance"}
    ensures "temperatura" !in PointFields(s) && "humedad" !in PointFields(s)
  {
    PointFieldSelection(s);
  }

  /** A telemetry cycle publishes a GPS state exactly when there is a fix,
      and always ends with the sensor state and then the database write. */
  lemma TelemetryShape(s: SensorSample, tags: map<string, string>, writeOk: bool)
    ensures var ev := TelemetryEvents(s, tags, writeOk);
      && |ev| == (if s.gps.Some? then 3 else 2)
      && (s.gps.Some? ==> ev[0].Publish? && ev[0].topic == GpsStateTopic)
      && ev[|ev| - 2] == Publish(SensorsStateTopic, Json(SensorsDocument(s)), false)
      && ev[|ev| - 1].WritePoint? && ev[|ev| - 1].fields == PointFields(s)
  {
  }

  // ---------------------------------------------------------------------
  // Discovery (sendDiscovery, publishDiscovery)
  // ---------------------------------------------------------------------

  const DeviceInfo: map<string, Value> :=
    map["ids" := Str("orion_esp32_v1"), "name" := Str("Orion IoT System"),
        "mdl" := Str("ESP32 Custom"), "mf" := Str("Ing. Jesus Gonzalez")]

  function DiscoveryTopic(component: string, uniqueId: string): string {
    "homeassistant/" + component + "/orion/" + uniqueId + "/config"
  }

  /** The unit a sensor's device class gets, if any. */
  function Unit(deviceClass: string): Option<string> {
    if deviceClass == "temperature" then Some("°C")
    else if deviceClass == "humidity" || deviceClass == "illuminance" then Some("%")
    else None
  }

  /** The discovery document sendDiscovery builds. */
  function Descriptor(component: string, name: string, uniqueId: string, deviceClass: string,
                      isSensor: bool, relayNum: int): Document
  {
    var base := map["name" := Str(name), "uniq_id" := Str(uniqueId), "dev" := Obj(DeviceInfo)];
    if !isSensor then
      if component == "light" then
        base["cmd_t" := Str(RelaySetTopic(relayNum))]["stat_t" := Str(RelayStateTopic(relayNum))]
            ["pl_on" := Str("ON")]["pl_off" := Str("OFF")]
      else if component == "lock" then
        base["cmd_t" := Str(LockSetTopic)]["stat_t" := Str(LockStateTopic)]
            ["pl_lock" := Str("LOCK")]["pl_unlk" := Str("UNLOCK")]
      else base
    else if component == "device_tracker" then
      base["stat_t" := Str(GpsStateTopic)]["json_attr_t" := Str(GpsStateTopic)]
    else
      var withTemplate := base["stat_t" := Str(SensorsStateTopic)]
                              ["val_tpl" := Str("{{ value_json." + uniqueId + " }}")];
      var withClass := if deviceClass != "" then withTemplate["dev_cla" := Str(deviceClass)] else withTemplate;
      match Unit(deviceClass)
      case Some(u) => withClass["unit_of_meas" := Str(u)]
      case None => withClass
  }

  /** What each kind of descriptor says: a light is commanded on its relay's
      set topic and reports on its state topic, the lock likewise on the
      lock topics, the tracker reads the GPS state, and a sensor reads the
      sensor state, with a device class only when one is given. */
  lemma DescriptorContents(component: string, name: string, uniqueId: string, deviceClass: string,
                           isSensor: bool, relayNum: int)
    ensures var d := Descriptor(component, name, uniqueId, deviceClass, isSensor, relayNum);
      && d["name"] == Str(name) && d["uniq_id"] == Str(uniqueId) && d["dev"] == Obj(DeviceInfo)
      && (!isSensor && component == "light" ==>
            d["cmd_t"] == Str(RelaySetTopic(relayNum)) && d["stat_t"] == Str(RelayStateTopic(relayNum)))
      && (!isSensor && component == "lock" ==>
            d["cmd_t"] == Str(LockSetTopic) && d["stat_t"] == Str(LockStateTopic))
      && (!isSensor && component != "light" && component != "lock" ==> d.Keys == {"name", "uniq_id", "dev"})
      && (isSensor ==> "cmd_t" !in d)
      && (isSensor && component == "device_tracker" ==> d["stat_t"] == Str(GpsStateTopic))
      && (isSensor && component != "device_tracker" ==>
            && d["stat_t"] == Str(SensorsStateTopic)
            && ("dev_cla" in d <==> deviceClass != "")
            && ("unit_of_meas" in d <==> Unit(deviceClass).Some?))
  {
    var d := Descriptor(component, name, uniqueId, deviceClass, isSensor, relayNum);
    if !isSensor {
      ActuatorDescriptor(component, name, uniqueId, relayNum);
    } else if component == "device_tracker" {
      assert d["stat_t"] == Str(GpsStateTopic);
    } else {
      SensorDescriptor(name, uniqueId, deviceClass);
    }
  }

  /** The descriptor of a light, of the lock, or of another actuator. */
  lemma ActuatorDescriptor(component: string, name: string, uniqueId: string, relayNum: int)
    ensures var d := Descriptor(component, name, uniqueId, "", false, relayNum);
      && d["name"] == Str(name) && d["uniq_id"] == Str(uniqueId) && d["dev"] == Obj(DeviceInfo)
      && (component == "light" ==>
            d["cmd_t"] == Str(RelaySetTopic(relayNum)) && d["stat_t"] == Str(RelayStateTopic(relayNum)))
      && (component == "lock" ==> d["cmd_t"] == Str(LockSetTopic) && d["stat_t"] == Str(LockStateTopic))
      && (component != "light" && component != "lock" ==> d.Keys == {"name", "uniq_id", "dev"})
  {
  }

  /** The descriptor of a sensor other than the tracker. */
  lemma SensorDescriptor(name: string, uniqueId: string, deviceClass: string)
    ensures var d := Descriptor("sensor", name, uniqueId, deviceClass, true, 0);
      && d["name"] == Str(name) && d["uniq_id"] == Str(uniqueId) && d["dev"] == Obj(DeviceInfo)
      && "cmd_t" !in d
      && d["stat_t"] == Str(SensorsStateTopic)
      && ("dev_cla" in d <==> deviceClass != "")
      && ("unit_of_meas" in d <==> Unit(deviceClass).Some?)
  {
  }

  /** One call of sendDiscovery. */
  datatype Announcement = Announcement(component: string, name: string, uniqueId: string,
                                       deviceClass: string, isSensor: bool, relayNum: int)

  /** publishDiscovery's nine calls, in order. */
  const Announcements: seq<Announcement> := [
    Announcement("light", "Luz Cocina", "relay1", "", false, 1),
    Announcement("light", "Luz Sala", "relay2", "", false, 2),
    Announcement("light", "Luz Pasillo", "relay3", "", false, 3),
    Announcement("light", "Luz Cuarto", "relay4", "", false, 4),
    Announcement("lock", "Cerradura Principal", "lock_main", "", false, 0),
    Announcement("sensor", "Temperatura", "temperature", "temperature", true, 0),
    Announcement("sensor", "Humedad", "humidity", "humidity", true, 0),
    Announcement("sensor", "Luminosidad", "illuminance", "illuminance", true, 0),
    Announcement("device_tracker", "Orion GPS", "gps_tracker", "", true, 0)]

  function AnnouncementDocument(a: Announcement): Document {
    Descriptor(a.component, a.name, a.uniqueId, a.deviceClass, a.isSensor, a.relayNum)
  }

  function AnnouncementEvent(a: Announcement): Event {
    Publish(DiscoveryTopic(a.component, a.uniqueId), Json(AnnouncementDocument(a)), true)
  }

  function AnnouncementEvents(anns: seq<Announcement>): (ev: seq<Event>)
    ensures |ev| == |anns|
    ensures forall i :: 0 <= i < |anns| ==> ev[i] == AnnouncementEvent(anns[i])
  {
    if anns == [] then [] else [AnnouncementEvent(anns[0])] + AnnouncementEvents(anns[1..])
  }

  /** Publishing the next announcement moves its event from the events
      still to come to the log. */
  lemma AnnouncedNext(want: seq<Event>, log: seq<Event>, anns: seq<Announcement>, k: nat)
    requires k < |anns| && want == log + AnnouncementEvents(anns[k..])
    ensures want == (log + [AnnouncementEvent(anns[k])]) + AnnouncementEvents(anns[k + 1..])
  {
    assert anns[k..][1..] == anns[k + 1..];
  }

  /** reconnect's subscriptions, in order. */
  const Subscriptions: seq<string> :=
    ["orion/relay1/set", "orion/relay2/set", "orion/relay3/set", "orion/relay4/set", "orion/lock/set"]

  function SubscribeEvents(topics: seq<string>): (ev: seq<Event>)
    ensures |ev| == |topics|
    ensures forall i :: 0 <= i < |topics| ==> ev[i] == Subscribe(topics[i])
  {
    if topics == [] then [] else [Subscribe(topics[0])] + SubscribeEvents(topics[1..])
  }

  lemma SubscriptionEvents()
    ensures SubscribeEvents(Subscriptions) ==
      [Subscribe("orion/relay1/set"), Subscribe("orion/relay2/set"), Subscribe("orion/relay3/set"),
       Subscribe("orion/relay4/set"), Subscribe("orion/lock/set")]
  {
  }

  /** The subscriptions are the relays' set topics and the lock's. */
  lemma SubscriptionsAreCommandTopics()
    ensures Subscriptions == [RelaySetTopic(1), RelaySetTopic(2), RelaySetTopic(3), RelaySetTopic(4), LockSetTopic]
  {
    RelayTopicsSpelled();
  }

  /** Every light or lock the bridge announces is commanded on a topic it
      subscribes to, and a message there reaches that very device. */
  lemma AnnouncedCommandsAreHandled(i: nat)
    requires i < 5
    ensures var a := Announcements[i];
      && !a.isSensor
      && AnnouncementDocument(a)["cmd_t"].Str?
      && AnnouncementDocument(a)["cmd_t"].s == Subscriptions[i]
      && Route(Subscriptions[i]) == (if i < 4 then RelayCommand(i + 1) else LockCommand)
  {
    SubscriptionsAreCommandTopics();
    var a := Announcements[i];
    if i < 4 {
      assert a.component == "light" && !a.isSensor && a.relayNum == i + 1;
      LightAnnouncementHandled(a, i + 1);
    } else {
      assert a.component == "lock" && !a.isSensor;
      LockAnnouncementHandled(a);
    }
  }

  /** A light announced for relay n is commanded on the topic that reaches
      relay n. */
  lemma LightAnnouncementHandled(a: Announcement, n: RelayId)
    requires a.component == "light" && !a.isSensor && a.relayNum == n
    ensures AnnouncementDocument(a)["cmd_t"] == Str(RelaySetTopic(n))
    ensures Route(RelaySetTopic(n)) == RelayCommand(n)
  {
    DescriptorContents(a.component, a.name, a.uniqueId, a.deviceClass, a.isSensor, a.relayNum);
    RelaySetTopicRoutes(n);
  }

  /** An announced lock is commanded on the topic that reaches the lock. */
  lemma LockAnnouncementHandled(a: Announcement)
    requires a.component == "lock" && !a.isSensor
    ensures AnnouncementDocument(a)["cmd_t"] == Str(LockSetTopic)
    ensures Route(LockSetTopic) == LockCommand
  {
    DescriptorContents(a.component, a.name, a.uniqueId, a.deviceClass, a.isSensor, a.relayNum);
    LockSetTopicRoutes();
  }

  /** Every sensor the bridge announces reads a key that the sensor state
      document always carries. */
  lemma AnnouncedSensorsAreReported(i: nat, s: SensorSample)
    requires 5 <= i < 8
    ensures var a := Announcements[i];
      && a.isSensor && a.component == "sensor"
      && AnnouncementDocument(a)["stat_t"] == Str(SensorsStateTopic)
      && AnnouncementDocument(a)["val_tpl"] == Str("{{ value_json." + a.uniqueId + " }}")
      && a.uniqueId in SensorsDocument(s)
  {
  }

  /** What reconnect logs, given the topics it subscribes to and the
      announcements it makes: nothing while connected; otherwise one attempt,
      and only after a successful one the subscriptions followed by the
      announcements. */
  function ReconnectEvents(wasConnected: bool, ok: bool, topics: seq<string>, anns: seq<Announcement>): seq<Event> {
    if wasConnected then []
    else [ConnectAttempt(ok)] + (if ok then SubscribeEvents(topics) + AnnouncementEvents(anns) else [])
  }

  /** While connected, reconnect does nothing; a failed attempt neither
      subscribes nor publishes. */
  lemma ReconnectWithoutSession(ok: bool, topics: seq<string>, anns: seq<Announcement>)
    ensures ReconnectEvents(true, ok, topics, anns) == []
    ensures ReconnectEvents(false, false, topics, anns) == [ConnectAttempt(false)]
  {
  }

  /** A successful attempt subscribes to every command topic, in order,
      before the first announcement, then makes the announcements in order. */
  lemma ReconnectSucceeded(wasConnected: bool, ok: bool, topics: seq<string>, anns: seq<Announcement>)
    requires !wasConnected && ok
    ensures var ev := ReconnectEvents(wasConnected, ok, topics, anns);
      && |ev| == 1 + |topics| + |anns| && ev[0] == ConnectAttempt(true)
      && (forall i :: 1 <= i <= |topics| ==> ev[i] == Subscribe(topics[i - 1]))
      && (forall i :: 1 + |topics| <= i < |ev| ==> ev[i] == AnnouncementEvent(anns[i - 1 - |topics|]))
  {
    var ev := ReconnectEvents(wasConnected, ok, topics, anns);
    var subs := SubscribeEvents(topics);
    var pubs := AnnouncementEvents(anns);
    assert ev == [ConnectAttempt(true)] + subs + pubs;
    MiddleIndex(ev, ConnectAttempt(true), subs, pubs);
    ShiftedIndex(ev, [ConnectAttempt(true)] + subs, pubs, |topics|);
  }

  // ---------------------------------------------------------------------
  // One pass of loopModoCloud
  // ---------------------------------------------------------------------

  /** What one pass does after its session step: its pin writes and
      network events, and the lock and telemetry globals it leaves. */
  datatype PassResult = PassResult(actions: seq<Action>, events: seq<Event>,
                                   lockOpen: bool, lockTimer: Millis, lastMsg: Millis)

  /** The message delivered in a pass, if the session is up and one came in. */
  function Delivered(up: bool, inbound: Option<Message>): Effect {
    if up && inbound.Some? then CallbackEffect(inbound.value.topic, inbound.value.payload)
    else Effect([], [], false)
  }

  /** One pass of loopModoCloud at time `now` after its session step
      (reconnect when the link is down, whose events are ReconnectEvents'),
      with `up` whether the session is then up: deliver at most one inbound
      message, relock a lock open for more than RelockMs, and run a
      telemetry cycle when more than IntervalMs have passed. */
  function Pass(up: bool, lockOpen: bool, lockTimer: Millis, lastMsg: Millis, tags: map<string, string>,
                now: Millis, inbound: Option<Message>, sample: SensorSample, writeOk: bool): PassResult
  {
    var e := Delivered(up, inbound);
    var open := lockOpen || e.arm;
    var timer := if e.arm then now else lockTimer;
    var relock := RelockDue(open, timer, now);
    var telemetry := TelemetryDue(now, lastMsg);
    PassResult(e.actions + RelockActions(relock), e.events + RelockEvents(relock) + TelemetryLog(telemetry, sample, tags, writeOk),
               open && !relock, timer, if telemetry then now else lastMsg)
  }

  /** The relock's write and publish, when it is due. */
  function RelockActions(due: bool): seq<Action> {
    if due then [DigitalWrite(Lock, false)] else []
  }

  function RelockEvents(due: bool): seq<Event> {
    if due then [Publish(LockStateTopic, Text("LOCKED"), false)] else []
  }

  /** A telemetry cycle's events, when one is due. */
  function TelemetryLog(due: bool, sample: SensorSample, tags: map<string, string>, writeOk: bool): seq<Event> {
    if due then TelemetryEvents(sample, tags, writeOk) else []
  }

  /** The lock's safety invariant: if the lock output was high only while
      the relock timer was armed, then after a pass it still is, and an
      armed timer is at most RelockMs old. So the lock is never left open
      for longer than three seconds past the pass that finds it due. */
  lemma PassKeepsLockSafe(l: Levels, up: bool, lockOpen: bool, lockTimer: Millis, lastMsg: Millis,
                          tags: map<string, string>, now: Millis, inbound: Option<Message>,
                          sample: SensorSample, writeOk: bool)
    requires l.WellFormed() && (l.lock ==> lockOpen)
    ensures var p := Pass(up, lockOpen, lockTimer, lastMsg, tags, now, inbound, sample, writeOk);
      && (Run(l, p.actions).lock ==> p.lockOpen)
      && (p.lockOpen ==> Elapsed(now, p.lockTimer) <= RelockMs)
  {
    var e := Delivered(up, inbound);
    var timer := if e.arm then now else lockTimer;
    var relock := RelockDue(lockOpen || e.arm, timer, now);
    var m := Run(l, e.actions);
    assert m.WellFormed();
    DeliveredLock(l, up, inbound);
    if relock {
      RunAppend(l, e.actions, [DigitalWrite(Lock, false)]);
      assert Run(m, [DigitalWrite(Lock, false)]) == Run(Apply(m, DigitalWrite(Lock, false)), []);
    } else {
      assert e.actions + [] == e.actions;
    }
  }

  /** A delivered message raises the lock output only when it arms the
      timer; otherwise the lock output is left high only if it was high. */
  lemma DeliveredLock(l: Levels, up: bool, inbound: Option<Message>)
    requires l.WellFormed()
    ensures var e := Delivered(up, inbound);
      && Run(l, e.actions).WellFormed()
      && (Run(l, e.actions).lock ==> e.arm || l.lock)
  {
    if up && inbound.Some? {
      var topic := inbound.value.topic;
      var msg := inbound.value.payload;
      match Route(CStr(topic)) {
        case RelayCommand(n) => RelayMessage(topic, msg, l, n, Lock);
        case LockCommand => LockMessage(topic, msg, l);
        case NoTarget =>
      }
    }
  }

  /** A quiet pass (no message, lock not due, telemetry not due) writes
      nothing and logs nothing. */
  lemma QuietPass(lockOpen: bool, lockTimer: Millis, lastMsg: Millis, tags: map<string, string>,
                  now: Millis, sample: SensorSample, writeOk: bool)
    requires !RelockDue(lockOpen, lockTimer, now) && !TelemetryDue(now, lastMsg)
    ensures Pass(true, lockOpen, lockTimer, lastMsg, tags, now, None, sample, writeOk)
      == PassResult([], [], lockOpen, lockTimer, lastMsg)
  {
  }

  // ---------------------------------------------------------------------
  // The bridge
  // ---------------------------------------------------------------------

  class Bridge {
    const board: Board
    /** ldrCloud */
    const ldr: Ldr.Ldr10K
    /** client.connected() */
    var connected: bool
    var lockOpen: bool
    var lockTimer: Millis
    var lastMsg: Millis
    /** The global tags and the current fields of the database point. */
    var tags: map<string, string>
    var fields: map<string, Value>
    /** Every network operation, in order. */
    var log: seq<Event>

    ghost predicate Valid()
      reads this, board, ldr
    {
      && board.Valid()
      && ldr.smoothingSamples == 1
      && ldr.minRaw == Ldr.DefaultMinRaw && ldr.maxRaw == Ldr.DefaultMaxRaw
    }

    /** The lock output is high only while the relock timer is armed.
        iniciarModoCloud establishes it and every pass keeps it. */
    ghost predicate LockSafe()
      reads this, board
    {
      board.State().lock ==> lockOpen
    }

    /** The globals as the program starts: disconnected, lock closed, both
        timestamps 0. */
    constructor (board: Board, ldr: Ldr.Ldr10K)
      requires board.Valid()
      requires ldr.smoothingSamples == 1 && ldr.minRaw == Ldr.DefaultMinRaw && ldr.maxRaw == Ldr.DefaultMaxRaw
      ensures Valid() && this.board == board && this.ldr == ldr
      ensures !connected && !lockOpen && lockTimer == 0 && lastMsg == 0
      ensures tags == map[] && fields == map[] && log == []
    {
      this.board := board;
      this.ldr := ldr;
      connected := false;
      lockOpen := false;
      lockTimer := 0;
      lastMsg := 0;
      tags := map[];
      fields := map[];
      log := [];
    }

    /** iniciarModoCloud: every output low, then the point's global tags.
        Clock synchronisation, the database check and the display are not
        modelled. */
    method Begin()
      requires Valid()
      modifies this, board
      ensures Valid() && board.initial == old(board.initial)
      ensures board.trace == old(board.trace) + AllOutputsLow
      ensures board.State() == Run(old(board.State()), AllOutputsLow)
      ensures tags == old(tags)["dispositivo" := "ESP32_Orion_V1"]["ubicacion" := "Azure_Demo"]
      ensures log == old(log) && connected == old(connected) && fields == old(fields)
      ensures lockOpen == old(lockOpen) && lockTimer == old(lockTimer) && lastMsg == old(lastMsg)
      ensures LockSafe()
    {
      board.DriveAllLow();
      AllOutputsLowEffect(old(board.State()));
      tags := tags["dispositivo" := "ESP32_Orion_V1"];
      tags := tags["ubicacion" := "Azure_Demo"];
    }

    /** callback, for a message received at time `now`. */
    method Callback(topic: string, msg: string, now: Millis)
      requires Valid()
      modifies this, board
      ensures Valid() && board.initial == old(board.initial)
      ensures var e := CallbackEffect(topic, msg);
        && board.trace == old(board.trace) + e.actions
        && board.State() == Run(old(board.State()), e.actions)
        && log == old(log) + e.events
        && lockOpen == (old(lockOpen) || e.arm)
        && lockTimer == (if e.arm then now else old(lockTimer))
      ensures connected == old(connected) && lastMsg == old(lastMsg)
      ensures tags == old(tags) && fields == old(fields)
    {
      ghost var before := board.State();
      assert Run(before, []) == before;
      var strTopic := CStr(topic);
      if EndsWith(strTopic, "relay1/set") {
        SetRelay(1, msg);
      } else if EndsWith(strTopic, "relay2/set") {
        SetRelay(2, msg);
      } else if EndsWith(strTopic, "relay3/set") {
        SetRelay(3, msg);
      } else if EndsWith(strTopic, "relay4/set") {
        SetRelay(4, msg);
      } else if EndsWith(strTopic, "lock/set") {
        if Equals(msg, "UNLOCK") {
          board.Do(DigitalWrite(Lock, true));
          log := log + [Publish(LockStateTopic, Text("UNLOCKED"), false)];
          lockOpen := true;
          lockTimer := now;
        } else {
          board.Do(DigitalWrite(Lock, false));
          log := log + [Publish(LockStateTopic, Text("LOCKED"), false)];
        }
        assert Run(before, [board.trace[|board.trace| - 1]]) == Run(board.State(), []);
      }
      assert old(board.trace) + [] == old(board.trace);
    }

    /** One relay branch of callback: drive relay `n` and echo the payload
        up to its first NUL. */
    method SetRelay(n: RelayId, msg: string)
      requires Valid()
      modifies this, board
      ensures Valid() && board.initial == old(board.initial)
      ensures board.trace == old(board.trace) + [DigitalWrite(Relay(n), Equals(msg, "ON"))]
      ensures board.State() == Run(old(board.State()), [DigitalWrite(Relay(n), Equals(msg, "ON"))])
      ensures log == old(log) + [Publish(RelayStateTopic(n), Text(CStr(msg)), false)]
      ensures connected == old(connected) && lastMsg == old(lastMsg)
      ensures lockOpen == old(lockOpen) && lockTimer == old(lockTimer)
      ensures tags == old(tags) && fields == old(fields)
    {
      ghost var before := board.State();
      board.Do(DigitalWrite(Relay(n), Equals(msg, "ON")));
      assert Run(before, [DigitalWrite(Relay(n), Equals(msg, "ON"))]) == Run(board.State(), []);
      log := log + [Publish(RelayStateTopic(n), Text(CStr(msg)), false)];
    }

    /** The relock step of loopModoCloud. */
    method Relock(now: Millis)
      requires Valid()
      modifies this, board
      ensures Valid() && board.initial == old(board.initial)
      ensures RelockDue(old(lockOpen), old(lockTimer), now) ==>
        && board.trace == old(board.trace) + [DigitalWrite(Lock, false)]
        && board.State() == old(board.State()).(lock := false)
        && log == old(log) + [Publish(LockStateTopic, Text("LOCKED"), false)]
        && !lockOpen
      ensures !RelockDue(old(lockOpen), old(lockTimer), now) ==>
        && board.trace == old(board.trace) && board.State() == old(board.State())
        && log == old(log) && lockOpen == old(lockOpen)
      ensures var due := RelockDue(old(lockOpen), old(lockTimer), now);
        && board.trace == old(board.trace) + RelockActions(due)
        && board.State() == Run(old(board.State()), RelockActions(due))
        && log == old(log) + RelockEvents(due)
        && lockOpen == (old(lockOpen) && !due)
      ensures lockTimer == old(lockTimer) && connected == old(connected) && lastMsg == old(lastMsg)
      ensures tags == old(tags) && fields == old(fields)
    {
      ghost var before := board.State();
      assert Run(before, []) == before;
      assert Run(before, [DigitalWrite(Lock, false)]) == Run(Apply(before, DigitalWrite(Lock, false)), []);
      if lockOpen && Elapsed(now, lockTimer) > RelockMs {
        board.Do(DigitalWrite(Lock, false));
        log := log + [Publish(LockStateTopic, Text("LOCKED"), false)];
        lockOpen := false;
      }
    }

    /** leerYPublicarSensores, without the display. */
    method PublishSensors(s: SensorSample, writeOk: bool)
      requires Valid()
      modifies this
      ensures Valid()
      ensures fields == PointFields(s)
      ensures log == old(log) + TelemetryEvents(s, tags, writeOk)
      ensures tags == old(tags) && connected == old(connected) && lastMsg == old(lastMsg)
      ensures lockOpen == old(lockOpen) && lockTimer == old(lockTimer)
    {
      Ldr.MeanOfOne(s.luxAdc);
      Ldr.MeanOfOne(s.rawAdc);
      var lux := ldr.GetPercentageLDR([s.luxAdc]);
      var luxRaw := ldr.GetAnalogLDR([s.rawAdc]);
      PublishState(s, lux);
      FillPoint(s.dht, lux, luxRaw, s.gps);
      assert LightFields(s) == map["luz_porcentaje" := Int(lux), "luz_raw" := Int(luxRaw)];
      log := log + [WritePoint(Measurement, tags, fields, writeOk)];
    }

    /** The MQTT half of leerYPublicarSensores: the GPS state when there is
        a fix, then the sensor state with the given light percentage. */
    method PublishState(s: SensorSample, lux: int)
      requires lux == Lux(s)
      modifies this
      ensures log == old(log) + TelemetryEvents(s, tags, true)[..|TelemetryEvents(s, tags, true)| - 1]
      ensures tags == old(tags) && fields == old(fields) && connected == old(connected)
      ensures lastMsg == old(lastMsg) && lockOpen == old(lockOpen) && lockTimer == old(lockTimer)
    {
      var doc: Document := map["temperature" := Int(s.dht.temperature), "humidity" := Int(s.dht.humidity),
                               "illuminance" := Int(lux)];
      if s.gps.Some? {
        log := log + [Publish(GpsStateTopic, Json(GpsDocument(s.gps.value)), false)];
      }
      log := log + [Publish(SensorsStateTopic, Json(doc), false)];
    }

    /** The database half of leerYPublicarSensores: the point's fields are
        cleared and refilled from this cycle's readings. */
    method FillPoint(dht: DhtReading, lux: int, luxRaw: int, gps: Option<GpsFix>)
      modifies this
      ensures fields == DhtFields(dht) + map["luz_porcentaje" := Int(lux), "luz_raw" := Int(luxRaw)] + GpsFields(gps)
      ensures log == old(log) && tags == old(tags) && connected == old(connected)
      ensures lastMsg == old(lastMsg) && lockOpen == old(lockOpen) && lockTimer == old(lockTimer)
    {
      fields := map[];
      if dht.status == 0 {
        fields := fields["temperatura" := Int(dht.temperature)];
        fields := fields["humedad" := Int(dht.humidity)];
      }
      assert fields == DhtFields(dht);
      ghost var dhtPart := fields;
      fields := fields["luz_porcentaje" := Int(lux)];
      fields := fields["luz_raw" := Int(luxRaw)];
      PairAdded(dhtPart, "luz_porcentaje", Int(lux), "luz_raw", Int(luxRaw));
      ghost var lightPart := fields;
      if gps.Some? {
        var fix := gps.value;
        fields := fields["latitud" := Num(fix.lat)];
        fields := fields["longitud" := Num(fix.lon)];
        fields := fields["altitud" := Num(fix.altitudeM)];
        fields := fields["satelites" := Int(fix.satellites)];
        GpsFieldsAdded(lightPart, fix);
      } else {
        assert lightPart + GpsFields(gps) == lightPart;
      }
    }

    /** sendDiscovery: one retained publish of the descriptor. */
    method SendDiscovery(component: string, name: string, uniqueId: string, deviceClass: string,
                         isSensor: bool, relayNum: int := 0)
      modifies this`log
      ensures log == old(log) + [Publish(DiscoveryTopic(component, uniqueId),
                                         Json(Descriptor(component, name, uniqueId, deviceClass, isSensor, relayNum)), true)]
    {
      var topicConfig := "homeassistant/" + component + "/orion/" + uniqueId + "/config";
      var doc := Descriptor(component, name, uniqueId, deviceClass, isSensor, relayNum);
      log := log + [Publish(topicConfig, Json(doc), true)];
    }

    /** publishDiscovery. */
    method PublishDiscovery()
      modifies this`log
      ensures log == old(log) + AnnouncementEvents(Announcements)
    {
      PublishNine(Announcements);
    }

    /** publishDiscovery's nine sendDiscovery calls, entry by entry of the
        table they are given. */
    method PublishNine(anns: seq<Announcement>)
      requires |anns| == 9
      modifies this`log
      ensures log == old(log) + AnnouncementEvents(anns)
    {
      ghost var want := log + AnnouncementEvents(anns);
      assert anns[0..] == anns;
      PublishLights(anns, want);
      PublishOthers(anns, want);
      assert anns[9..] == [];
    }

    /** The first four calls, for the relays' lights: `want` is the whole
        log publishDiscovery leaves, and what remains of it shrinks by one
        event per call. */
    method PublishLights(anns: seq<Announcement>, ghost want: seq<Event>)
      requires |anns| == 9 && want == log + AnnouncementEvents(anns[0..])
      modifies this`log
      ensures want == log + AnnouncementEvents(anns[4..])
    {
      AnnouncedNext(want, log, anns, 0);
      Announce(anns[0]);
      AnnouncedNext(want, log, anns, 1);
      Announce(anns[1]);
      AnnouncedNext(want, log, anns, 2);
      Announce(anns[2]);
      AnnouncedNext(want, log, anns, 3);
      Announce(anns[3]);
    }

    /** The last five calls: the lock, the three sensors and the tracker. */
    method PublishOthers(anns: seq<Announcement>, ghost want: seq<Event>)
      requires |anns| == 9 && want == log + AnnouncementEvents(anns[4..])
      modifies this`log
      ensures want == log + AnnouncementEvents(anns[9..])
    {
      AnnouncedNext(want, log, anns, 4);
      Announce(anns[4]);
      AnnouncedNext(want, log, anns, 5);
      Announce(anns[5]);
      AnnouncedNext(want, log, anns, 6);
      Announce(anns[6]);
      AnnouncedNext(want, log, anns, 7);
      Announce(anns[7]);
      AnnouncedNext(want, log, anns, 8);
      Announce(anns[8]);
    }

    /** One sendDiscovery call of publishDiscovery, with the arguments of
        one entry of the table. */
    method Announce(a: Announcement)
      modifies this`log
      ensures log == old(log) + [AnnouncementEvent(a)]
    {
      SendDiscovery(a.component, a.name, a.uniqueId, a.deviceClass, a.isSensor, a.relayNum);
    }

    /** reconnect. */
    method Reconnect(connectOk: bool)
      modifies this`log, this`connected
      ensures connected == (old(connected) || connectOk)
      ensures log == old(log) + ReconnectEvents(old(connected), connectOk, Subscriptions, Announcements)
    {
      if !connected {
        log := log + [ConnectAttempt(connectOk)];
        if connectOk {
          connected := true;
          SubscribeAll();
          PublishDiscovery();
          Regroup(old(log), [ConnectAttempt(true)], SubscribeEvents(Subscriptions), AnnouncementEvents(Announcements));
        }
      }
    }

    /** reconnect's five subscribe calls. */
    method SubscribeAll()
      modifies this`log
      ensures log == old(log) + SubscribeEvents(Subscriptions)
    {
      log := log + [Subscribe("orion/relay1/set")];
      log := log + [Subscribe("orion/relay2/set")];
      log := log + [Subscribe("orion/relay3/set")];
      log := log + [Subscribe("orion/relay4/set")];
      log := log + [Subscribe("orion/lock/set")];
      SubscriptionEvents();
    }

    /** The session step of loopModoCloud: the link may have dropped since
        the last pass, and reconnect runs whenever it is down. */
    method KeepSession(linkAlive: bool, connectOk: bool)
      modifies this`log, this`connected
      ensures connected == ((old(connected) && linkAlive) || connectOk)
      ensures log == old(log) + ReconnectEvents(old(connected) && linkAlive, connectOk, Subscriptions, Announcements)
    {
      if !linkAlive {
        connected := false;
      }
      if !connected {
        Reconnect(connectOk);
      }
    }

    /** One pass of loopModoCloud at time `now`: the session step, then
        exactly what Pass says; the lock's safety invariant is kept. */
    method Tick(now: Millis, linkAlive: bool, connectOk: bool, inbound: Option<Message>,
                sample: SensorSample, writeOk: bool)
      requires Valid() && LockSafe()
      modifies this, board
      ensures Valid() && board.initial == old(board.initial)
      ensures connected == ((old(connected) && linkAlive) || connectOk)
      ensures var p := Pass(connected, old(lockOpen), old(lockTimer), old(lastMsg), old(tags), now, inbound, sample, writeOk);
        && board.trace == old(board.trace) + p.actions
        && board.State() == Run(old(board.State()), p.actions)
        && log == old(log) + ReconnectEvents(old(connected) && linkAlive, connectOk, Subscriptions, Announcements) + p.events
        && lockOpen == p.lockOpen && lockTimer == p.lockTimer && lastMsg == p.lastMsg
      ensures fields == (if TelemetryDue(now, old(lastMsg)) then PointFields(sample) else old(fields))
      ensures tags == old(tags)
      ensures LockSafe() && (board.State().lock ==> Elapsed(now, lockTimer) <= RelockMs)
    {
      KeepSession(linkAlive, connectOk);
      Serve(now, inbound, sample, writeOk);
    }

    /** A pass after its session step: delivery, relock and telemetry. */
    method Serve(now: Millis, inbound: Option<Message>, sample: SensorSample, writeOk: bool)
      requires Valid() && LockSafe()
      modifies this, board
      ensures Valid() && board.initial == old(board.initial)
      ensures var p := Pass(old(connected), old(lockOpen), old(lockTimer), old(lastMsg), old(tags), now, inbound, sample, writeOk);
        && board.trace == old(board.trace) + p.actions
        && board.State() == Run(old(board.State()), p.actions)
        && log == old(log) + p.events
        && lockOpen == p.lockOpen && lockTimer == p.lockTimer && lastMsg == p.lastMsg
      ensures fields == (if TelemetryDue(now, old(lastMsg)) then PointFields(sample) else old(fields))
      ensures connected == old(connected) && tags == old(tags)
      ensures LockSafe() && (board.State().lock ==> Elapsed(now, lockTimer) <= RelockMs)
    {
      PassKeepsLockSafe(board.State(), connected, lockOpen, lockTimer, lastMsg, tags, now, inbound, sample, writeOk);
      ghost var e := Delivered(connected, inbound);
      Deliver(inbound, now);
      ghost var due := RelockDue(lockOpen, lockTimer, now);
      Relock(now);
      RunAppend(old(board.State()), e.actions, RelockActions(due));
      Assoc(old(board.trace), e.actions, RelockActions(due));
      ghost var t := TelemetryLog(TelemetryDue(now, lastMsg), sample, tags, writeOk);
      Telemetry(now, sample, writeOk);
      Regroup(old(log), e.events, RelockEvents(due), t);
    }

    /** The telemetry gate of a pass: a cycle runs, and lastMsg moves to
        `now`, exactly when more than IntervalMs have passed. */
    method Telemetry(now: Millis, sample: SensorSample, writeOk: bool)
      requires Valid()
      modifies this
      ensures Valid()
      ensures var due := TelemetryDue(now, old(lastMsg));
        && log == old(log) + TelemetryLog(due, sample, tags, writeOk)
        && lastMsg == (if due then now else old(lastMsg))
        && fields == (if due then PointFields(sample) else old(fields))
      ensures tags == old(tags) && connected == old(connected)
      ensures lockOpen == old(lockOpen) && lockTimer == old(lockTimer)
    {
      if Elapsed(now, lastMsg) > IntervalMs {
        lastMsg := now;
        PublishSensors(sample, writeOk);
      }
    }

    /** The delivery step of a pass: the callback runs on the inbound
        message only while the session is up. */
    method Deliver(inbound: Option<Message>, now: Millis)
      requires Valid()
      modifies this, board
      ensures Valid() && board.initial == old(board.initial)
      ensures var e := Delivered(connected, inbound);
        && board.trace == old(board.trace) + e.actions
        && board.State() == Run(old(board.State()), e.actions)
        && log == old(log) + e.events
        && lockOpen == (old(lockOpen) || e.arm)
        && lockTimer == (if e.arm then now else old(lockTimer))
      ensures connected == old(connected) && lastMsg == old(lastMsg)
      ensures tags == old(tags) && fields == old(fields)
    {
      if connected && inbound.Some? {
        Callback(inbound.value.topic, inbound.value.payload, now);
      } else {
        assert Run(board.State(), []) == board.State();
      }
    }
  }
}
