/** The outputs the three modes share: four relays, the electronic lock and
    three servos. Every write on them is an Action; a Board records the
    current levels together with the trace of actions that produced them. */
module Hardware {

  /** A relay number as the firmware counts them (PIN_RELAY_1 .. PIN_RELAY_4). */
  type RelayId = n: int | 1 <= n <= 4 witness 1

  /** A servo number (PIN_SERVO_1 .. PIN_SERVO_3). */
  type ServoId = n: int | 1 <= n <= 3 witness 1

  /** A digital output: one of the relays, or the lock. */
  datatype Output = Relay(id: RelayId) | Lock

  /** The GPIO that drives each digital output. */
  function Gpio(o: Output): (g: nat)
    ensures g in {26, 27, 14, 12, 13}
  {
    match o
    case Lock => 13
    case Relay(n) => if n == 1 then 26 else if n == 2 then 27 else if n == 3 then 14 else 12
  }

  /** The GPIO each servo is attached to. */
  function ServoGpio(s: ServoId): (g: nat)
    ensures g in {15, 2, 4}
  {
    if s == 1 then 15 else if s == 2 then 2 else 4
  }

  /** No two outputs share a pin, and no servo sits on a relay or lock pin. */
  lemma PinsDistinct(a: Output, b: Output, s: ServoId, t: ServoId)
    ensures Gpio(a) == Gpio(b) ==> a == b
    ensures ServoGpio(s) == ServoGpio(t) ==> s == t
    ensures Gpio(a) != ServoGpio(s)
  {
  }

  /** One write on the shared hardware. */
  datatype Action =
    | DigitalWrite(out: Output, high: bool)
    | ServoAttach(servo: ServoId)
    | ServoWrite(servo: ServoId, angle: int)
    | ServoDetach(servo: ServoId)

  /** Levels of all outputs: relay levels (index n-1 for relay n), the lock
      level, the last angle commanded to each servo and whether it is attached. */
  datatype Levels = Levels(relays: seq<bool>, lock: bool, angles: seq<int>, attached: seq<bool>)
  {
    ghost predicate WellFormed() {
      |relays| == 4 && |angles| == 3 && |attached| == 3
    }

    /** The level of one digital output. */
    function Level(o: Output): bool
      requires WellFormed()
    {
      match o
      case Lock => lock
      case Relay(n) => relays[n - 1]
    }
  }

  /** The levels after one action. */
  function Apply(l: Levels, a: Action): (r: Levels)
    requires l.WellFormed()
    ensures r.WellFormed()
  {
    match a
    case DigitalWrite(Lock, high) => l.(lock := high)
    case DigitalWrite(Relay(n), high) => l.(relays := l.relays[n - 1 := high])
    case ServoAttach(s) => l.(attached := l.attached[s - 1 := true])
    case ServoWrite(s, angle) => l.(angles := l.angles[s - 1 := angle])
    case ServoDetach(s) => l.(attached := l.attached[s - 1 := false])
  }

  /** A digital write sets its own output and no other. */
  lemma ApplyWrite(l: Levels, o: Output, high: bool, other: Output)
    requires l.WellFormed()
    ensures Apply(l, DigitalWrite(o, high)).Level(o) == high
    ensures other != o ==> Apply(l, DigitalWrite(o, high)).Level(other) == l.Level(other)
    ensures Apply(l, DigitalWrite(o, high)).angles == l.angles
    ensures Apply(l, DigitalWrite(o, high)).attached == l.attached
  {
  }

  /** The levels after a sequence of actions, performed in order. */
  function Run(l: Levels, actions: seq<Action>): (r: Levels)
    requires l.WellFormed()
    ensures r.WellFormed()
    decreases |actions|
  {
    if actions == [] then l else Run(Apply(l, actions[0]), actions[1..])
  }

  /** Running two traces one after the other is running their concatenation. */
  lemma {:induction false} RunAppend(l: Levels, a: seq<Action>, b: seq<Action>)
    requires l.WellFormed()
    ensures Run(l, a + b) == Run(Run(l, a), b)
    decreases |a|
  {
    if a == [] {
      assert a + b == b;
    } else {
      assert (a + b)[1..] == a[1..] + b;
      RunAppend(Apply(l, a[0]), a[1..], b);
    }
  }

  /** A trace that never writes output `o` leaves its level alone. */
  lemma {:induction false} RunKeeps(l: Levels, actions: seq<Action>, o: Output)
    requires l.WellFormed()
    requires forall i :: 0 <= i < |actions| ==> !(actions[i].DigitalWrite? && actions[i].out == o)
    ensures Run(l, actions).Level(o) == l.Level(o)
    decreases |actions|
  {
    if actions != [] {
      RunKeeps(Apply(l, actions[0]), actions[1..], o);
    }
  }

  /** Driving every digital output low, in pin order: relays 1..4, then the
      lock. Both the cloud and the test mode do this when they start. */
  const AllOutputsLow: seq<Action> :=
    [DigitalWrite(Relay(1), false), DigitalWrite(Relay(2), false),
     DigitalWrite(Relay(3), false), DigitalWrite(Relay(4), false),
     DigitalWrite(Lock, false)]

  lemma AllOutputsLowEffect(l: Levels)
    requires l.WellFormed()
    ensures Run(l, AllOutputsLow).relays == [false, false, false, false]
    ensures !Run(l, AllOutputsLow).lock
    ensures Run(l, AllOutputsLow).angles == l.angles
    ensures Run(l, AllOutputsLow).attached == l.attached
  {
    var l1 := Apply(l, AllOutputsLow[0]);
    var l2 := Apply(l1, AllOutputsLow[1]);
    var l3 := Apply(l2, AllOutputsLow[2]);
    var l4 := Apply(l3, AllOutputsLow[3]);
    var l5 := Apply(l4, AllOutputsLow[4]);
    assert Run(l, AllOutputsLow) == Run(l1, AllOutputsLow[1..]);
    assert Run(l1, AllOutputsLow[1..]) == Run(l2, AllOutputsLow[2..]);
    assert Run(l2, AllOutputsLow[2..]) == Run(l3, AllOutputsLow[3..]);
    assert Run(l3, AllOutputsLow[3..]) == Run(l4, AllOutputsLow[4..]);
    assert Run(l4, AllOutputsLow[4..]) == l5;
    assert l5.relays == l4.relays && l4.relays == l3.relays[3 := false];
    assert l3.relays == l2.relays[2 := false] && l2.relays == l1.relays[1 := false];
    assert l1.relays == l.relays[0 := false];
    ClearedRelays(l.relays);
  }

  /** Helper: clearing each of four relay levels leaves them all low. */
  lemma ClearedRelays(r: seq<bool>)
    requires |r| == 4
    ensures r[0 := false][1 := false][2 := false][3 := false] == [false, false, false, false]
  {
  }

  /** What DHT11::readTemperatureHumidity reports: its status code (0 on
      success) and the values left in its two out-parameters. */
  datatype DhtReading = DhtReading(status: int, temperature: int, humidity: int)

  /** A GPS fix as the decoder reports it. The coordinates are carried
      along and never computed with. */
  datatype GpsFix = GpsFix(lat: real, lon: real, altitudeM: real, satellites: nat)

  /** The physical outputs. The fields are the levels the pins are driven to;
      `trace` is every write performed so far, and the object invariant says
      the levels are exactly what that trace produces from `initial`. */
  class Board {
    var relays: seq<bool>
    var lock: bool
    var angles: seq<int>
    var attached: seq<bool>
    var trace: seq<Action>
    ghost var initial: Levels

    function State(): Levels
      reads this
    {
      Levels(relays, lock, angles, attached)
    }

    ghost predicate Valid()
      reads this
    {
      State().WellFormed() && initial.WellFormed() && State() == Run(initial, trace)
    }

    constructor (start: Levels)
      requires start.WellFormed()
      ensures Valid() && State() == start && initial == start && trace == []
    {
      relays, lock, angles, attached := start.relays, start.lock, start.angles, start.attached;
      trace := [];
      initial := start;
    }

    /** digitalWrite, Servo.attach, Servo.write or Servo.detach. */
    method Do(a: Action)
      requires Valid()
      modifies this
      ensures Valid() && initial == old(initial)
      ensures trace == old(trace) + [a]
      ensures State() == Apply(old(State()), a)
    {
      match a {
        case DigitalWrite(o, high) =>
          if o == Lock { lock := high; } else { relays := relays[o.id - 1 := high]; }
        case ServoAttach(s) => attached := attached[s - 1 := true];
        case ServoWrite(s, angle) => angles := angles[s - 1 := angle];
        case ServoDetach(s) => attached := attached[s - 1 := false];
      }
      trace := trace + [a];
      RunAppend(initial, old(trace), [a]);
      assert Run(old(State()), [a]) == Run(Apply(old(State()), a), []);
    }

    /** The start-up writes of the cloud and test modes: every digital
        output driven low, relays first, then the lock. */
    method DriveAllLow()
      requires Valid()
      modifies this
      ensures Valid() && initial == old(initial)
      ensures trace == old(trace) + AllOutputsLow
      ensures State() == Run(old(State()), AllOutputsLow)
    {
      Do(DigitalWrite(Relay(1), false));
      Do(DigitalWrite(Relay(2), false));
      Do(DigitalWrite(Relay(3), false));
      Do(DigitalWrite(Relay(4), false));
      Do(DigitalWrite(Lock, false));
      assert trace == old(trace) + AllOutputsLow;
      RunAppend(initial, old(trace), AllOutputsLow);
    }
  }
}
