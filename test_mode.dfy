// The hardware self-test mode: potentiometer navigation of the test menu,
// the menu's selection logic, and the pin sequences of the relay, lock and
// servo tests.

module TestMode {
  import opened Hardware
  import Ldr
  import opened Sequences

  /** A 12-bit reading of the ESP32 ADC. */
  type PotReading = x: int | 0 <= x <= 4095

  /** The entries of the test menu: relays, lock, DHT, GPS, servos, back. */
  const MenuSize := 6
  const BackItem := 5

  /** The global interface state shared with the main program. */
  datatype UIState =
    | UiMainMenu
    | UiConfigMenu
    | UiWifiScan
    | UiWifiPassword
    | UiLocalMode
    | UiCloudMode
    | UiTestMode

  // ---------------------------------------------------------------------
  // Potentiometer filter (leerPotTest)
  // ---------------------------------------------------------------------

  /** One step of the integer low-pass filter: seven parts old value, one
      part new reading, divided by eight. All operands are non-negative, so
      C's truncating division agrees with Dafny's. */
  function Filtered(f: nat, raw: nat): (r: nat)
    ensures f <= raw ==> f <= r <= raw
    ensures raw <= f ==> raw <= r <= f
  {
    (f * 7 + raw) / 8
  }

  /** The filter keeps its value exactly when the reading is at most seven
      above it: a rising input can leave it up to seven counts short, a
      falling one cannot. */
  lemma FilterFixedPoint(f: nat, raw: nat)
    ensures Filtered(f, raw) == f <==> f <= raw <= f + 7
  {
    if f <= raw <= f + 7 {
      assert f * 7 + raw == 8 * f + (raw - f);
    } else if raw < f {
      assert f * 7 + raw <= 8 * f - 1;
    } else {
      assert f * 7 + raw >= 8 * (f + 1);
    }
  }

  /** Away from a fixed point the filter moves at least one count toward
      the reading, and never past it. */
  lemma FilterProgress(f: nat, raw: nat)
    ensures raw < f ==> raw <= Filtered(f, raw) < f
    ensures f + 7 < raw ==> f < Filtered(f, raw) <= raw
  {
    if raw < f {
      assert f * 7 + raw <= 8 * f - 1;
    } else if f + 7 < raw {
      assert f * 7 + raw >= 8 * (f + 1);
    }
  }

  /** The filter applied `n` times to a constant reading. */
  function Settle(f: nat, raw: nat, n: nat): nat
    decreases n
  {
    if n == 0 then f else Settle(Filtered(f, raw), raw, n - 1)
  }

  lemma {:induction false} SettleFixed(f: nat, raw: nat, n: nat)
    requires f <= raw <= f + 7
    ensures Settle(f, raw, n) == f
  {
    if n > 0 {
      FilterFixedPoint(f, raw);
      SettleFixed(f, raw, n - 1);
    }
  }

  /** Held at one reading, the filter reaches a fixed point within as many
      steps as the distance it starts from. */
  lemma {:induction false} SettlesWithin(f: nat, raw: nat, n: nat)
    requires f <= raw + n && raw <= f + n
    ensures Settle(f, raw, n) <= raw <= Settle(f, raw, n) + 7
    decreases n
  {
    if f <= raw <= f + 7 {
      SettleFixed(f, raw, n);
    } else {
      FilterProgress(f, raw);
      SettlesWithin(Filtered(f, raw), raw, n - 1);
    }
  }

  // ---------------------------------------------------------------------
  // Menu index (leerIndiceTest)
  // ---------------------------------------------------------------------

  /** Arduino's constrain. */
  function Constrain(x: int, lo: int, hi: int): int
    requires lo <= hi
  {
    if x < lo then lo else if x > hi then hi else x
  }

  /** The menu entry a filtered value points at: the 4096-count range cut
      into `items` steps of 4096 / items counts, the last step also taking
      the remainder. More than 4096 items would make the step zero. */
  function MenuIndex(value: nat, items: int): (k: int)
    requires 0 < items <= 4096
    ensures 0 <= k < items
  {
    Constrain(value / (4096 / items), 0, items - 1)
  }

  /** A higher pot value never selects an earlier entry. */
  lemma MenuIndexMonotone(v1: nat, v2: nat, items: int)
    requires 0 < items <= 4096
    requires v1 <= v2
    ensures MenuIndex(v1, items) <= MenuIndex(v2, items)
  {
    var step := 4096 / items;
    var q1, q2 := v1 / step, v2 / step;
    assert step * q1 <= v1 <= v2 < step * (q2 + 1);
    Ldr.MulCancel(step, q1, q2 + 1);
  }

  /** Every entry is reachable: the first value of its step is a reading
      the ADC can produce and selects it. */
  lemma MenuIndexReachesEvery(k: nat, items: int)
    requires 0 < items <= 4096 && k < items
    ensures k * (4096 / items) <= 4095
    ensures MenuIndex(k * (4096 / items), items) == k
  {
    var step := 4096 / items;
    assert step * items <= 4096;
    assert step >= 1;
    MulMonotone(k, items - 1, step);
    assert (items - 1) * step == items * step - step;
    MulDivCancel(k, step);
  }

  lemma MulMonotone(a: nat, b: nat, c: nat)
    requires a <= b
    ensures a * c <= b * c
  {
  }

  lemma MulDivCancel(k: nat, d: nat)
    requires d > 0
    ensures (k * d) / d == k
  {
    Ldr.DivBounds(k * d, d, k, k);
  }

  /** With six entries the step is 682, so the top four counts divide to 6
      and the clamp puts them on the last entry. */
  lemma TopOfRangeIsLastItem(value: PotReading)
    requires value >= 6 * 682
    ensures value / (4096 / MenuSize) == MenuSize
    ensures MenuIndex(value, MenuSize) == BackItem
  {
  }

  // ---------------------------------------------------------------------
  // Self-test pin sequences
  // ---------------------------------------------------------------------

  /** ejecutarTestRelays, first `n` relays: each driven high, then low. */
  function RelayPulses(n: nat): seq<Action>
    requires n <= 4
  {
    if n == 0 then [] else RelayPulses(n - 1) + [DigitalWrite(Relay(n), true), DigitalWrite(Relay(n), false)]
  }

  /** The relays are pulsed in order, each high immediately before low. */
  lemma {:induction false} RelayPulsesOrder(n: nat)
    requires n <= 4
    ensures |RelayPulses(n)| == 2 * n
    ensures forall i :: 0 <= i < n ==>
      RelayPulses(n)[2 * i] == DigitalWrite(Relay(i + 1), true) &&
      RelayPulses(n)[2 * i + 1] == DigitalWrite(Relay(i + 1), false)
  {
    if n > 0 {
      RelayPulsesOrder(n - 1);
    }
  }

  /** After the first `n` pulses those relays are low; the others, the lock
      and the servos are as they were. */
  lemma {:induction false} RelayPulsesEffect(l: Levels, n: nat)
    requires l.WellFormed() && n <= 4
    ensures var r := Run(l, RelayPulses(n));
      && (forall j :: 0 <= j < 4 ==> r.relays[j] == (if j < n then false else l.relays[j]))
      && r.lock == l.lock && r.angles == l.angles && r.attached == l.attached
  {
    if n > 0 {
      var pulse := [DigitalWrite(Relay(n), true), DigitalWrite(Relay(n), false)];
      RelayPulsesEffect(l, n - 1);
      RunAppend(l, RelayPulses(n - 1), pulse);
      var m := Run(l, RelayPulses(n - 1));
      assert Run(m, pulse) == Run(Apply(m, pulse[0]), pulse[1..]);
      assert Run(Apply(m, pulse[0]), pulse[1..]) == Apply(Apply(m, pulse[0]), pulse[1]);
    }
  }

  /** ejecutarTestCerradura: the lock opens, and closes three seconds later. */
  const LockPulse: seq<Action> := [DigitalWrite(Lock, true), DigitalWrite(Lock, false)]

  lemma LockPulseEffect(l: Levels)
    requires l.WellFormed()
    ensures Run(l, LockPulse) == l.(lock := false)
  {
    assert Run(l, LockPulse) == Run(Apply(l, LockPulse[0]), LockPulse[1..]);
    assert Run(Apply(l, LockPulse[0]), LockPulse[1..]) == Apply(Apply(l, LockPulse[0]), LockPulse[1]);
  }

  /** The angles the servo test sweeps through. */
  const SweepAngles: seq<int> := [0, 90, 180]

  /** The servo test's writes for its first `n` angles: all three servos,
      in order, per angle. */
  function SweepWrites(n: nat): seq<Action>
    requires n <= 3
  {
    if n == 0 then [] else SweepWrites(n - 1) + SweepStep(SweepAngles[n - 1])
  }

  /** All three servos written to one angle, in order. */
  function SweepStep(angle: int): seq<Action> {
    [ServoWrite(1, angle), ServoWrite(2, angle), ServoWrite(3, angle)]
  }

  const AttachAll: seq<Action> := [ServoAttach(1), ServoAttach(2), ServoAttach(3)]
  const DetachAll: seq<Action> := [ServoDetach(1), ServoDetach(2), ServoDetach(3)]

  /** The sweep moves every servo to 0, then 90, then 180 degrees. */
  lemma {:induction false} SweepOrder(n: nat)
    requires n <= 3
    ensures |SweepWrites(n)| == 3 * n
    ensures forall j :: 0 <= j < n ==>
      && SweepWrites(n)[3 * j] == ServoWrite(1, SweepAngles[j])
      && SweepWrites(n)[3 * j + 1] == ServoWrite(2, SweepAngles[j])
      && SweepWrites(n)[3 * j + 2] == ServoWrite(3, SweepAngles[j])
  {
    if n > 0 {
      SweepOrder(n - 1);
    }
  }

  /** After the first `n` angles all three servos hold the last one, and
      nothing else has changed. */
  lemma {:induction false} SweepEffect(l: Levels, n: nat)
    requires l.WellFormed() && 0 < n <= 3
    ensures var r := Run(l, SweepWrites(n));
      r == l.(angles := [SweepAngles[n - 1], SweepAngles[n - 1], SweepAngles[n - 1]])
  {
    var a := SweepAngles[n - 1];
    if n > 1 {
      SweepEffect(l, n - 1);
    } else {
      assert SweepWrites(0) == [];
    }
    RunAppend(l, SweepWrites(n - 1), SweepStep(a));
    ServoStep(Run(l, SweepWrites(n - 1)), a);
  }

  lemma ServoStep(m: Levels, a: int)
    requires m.WellFormed()
    ensures Run(m, SweepStep(a)) == m.(angles := [a, a, a])
  {
    var step := SweepStep(a);
    var m1 := Apply(m, step[0]);
    var m2 := Apply(m1, step[1]);
    assert Run(m, step) == Run(m1, step[1..]);
    assert Run(m1, step[1..]) == Run(m2, step[2..]);
    assert Run(m2, step[2..]) == Apply(m2, step[2]);
  }

  /** The servo test leaves every servo at 180 degrees and detached, and
      no relay or lock level changed. */
  lemma ServoTestEffect(l: Levels)
    requires l.WellFormed()
    ensures Run(l, AttachAll + SweepWrites(3) + DetachAll) == l.(angles := [180, 180, 180], attached := [false, false, false])
  {
    RunAppend(l, AttachAll + SweepWrites(3), DetachAll);
    RunAppend(l, AttachAll, SweepWrites(3));
    AttachAllEffect(l);
    var m := Run(l, AttachAll);
    SweepEffect(m, 3);
    DetachAllEffect(Run(m, SweepWrites(3)));
  }

  /** Attaching the three servos marks all three attached. */
  lemma AttachAllEffect(l: Levels)
    requires l.WellFormed()
    ensures Run(l, AttachAll) == l.(attached := [true, true, true])
  {
    var m1 := Apply(l, AttachAll[0]);
    var m2 := Apply(m1, AttachAll[1]);
    assert Run(l, AttachAll) == Run(m1, AttachAll[1..]);
    assert Run(m1, AttachAll[1..]) == Run(m2, AttachAll[2..]);
    assert Run(m2, AttachAll[2..]) == Apply(m2, AttachAll[2]);
  }

  /** Detaching the three servos marks all three detached. */
  lemma DetachAllEffect(w: Levels)
    requires w.WellFormed()
    ensures Run(w, DetachAll) == w.(attached := [false, false, false])
  {
    var w1 := Apply(w, DetachAll[0]);
    var w2 := Apply(w1, DetachAll[1]);
    assert Run(w, DetachAll) == Run(w1, DetachAll[1..]);
    assert Run(w1, DetachAll[1..]) == Run(w2, DetachAll[2..]);
    assert Run(w2, DetachAll[2..]) == Apply(w2, DetachAll[2]);
  }

  /** The writes the confirmed menu entry performs. The DHT and GPS tests
      only read and display; "back" writes nothing. */
  function TestActions(index: int): seq<Action> {
    if index == 0 then RelayPulses(4)
    else if index == 1 then LockPulse
    else if index == 4 then AttachAll + SweepWrites(3) + DetachAll
    else []
  }

  // ---------------------------------------------------------------------
  // The test mode
  // ---------------------------------------------------------------------

  class Harness {
    const board: Board
    /** leerPotTest's static filter state. */
    var filtered: nat
    /** leerIndiceTest's static last index, -1 before the first read. */
    var lastIndex: int
    /** loopModoTest's static first-run flag. */
    var firstRun: bool
    var testIndex: int
    /** Globals shared with the main program; confirmPressed is set by the
        button interrupt. */
    var uiState: UIState
    var redrawMenu: bool
    var confirmPressed: bool

    ghost predicate Valid()
      reads this, board
    {
      board.Valid() && filtered <= 4095 && 0 <= testIndex < MenuSize && -1 <= lastIndex < MenuSize
    }

    /** The statics and globals as the program starts. */
    constructor (board: Board)
      requires board.Valid()
      ensures Valid() && this.board == board
      ensures filtered == 0 && lastIndex == -1 && firstRun && testIndex == 0
      ensures uiState == UiMainMenu && !redrawMenu && !confirmPressed
    {
      this.board := board;
      filtered := 0;
      lastIndex := -1;
      firstRun := true;
      testIndex := 0;
      uiState := UiMainMenu;
      redrawMenu := false;
      confirmPressed := false;
    }

    /** iniciarModoTest: every relay and the lock driven low. */
    method Begin()
      requires Valid()
      modifies board
      ensures Valid() && board.initial == old(board.initial)
      ensures board.trace == old(board.trace) + AllOutputsLow
      ensures board.State() == Run(old(board.State()), AllOutputsLow)
    {
      board.DriveAllLow();
    }

    /** leerPotTest with ADC reading `raw`. */
    method ReadPot(raw: PotReading) returns (v: nat)
      requires Valid()
      modifies this`filtered
      ensures Valid()
      ensures v == filtered == Filtered(old(filtered), raw)
    {
      filtered := (filtered * 7 + raw) / 8;
      v := filtered;
    }

    /** leerIndiceTest: the entry under the pot when it differs from the
        last one seen, otherwise -1. */
    method ReadIndex(items: int, raw: PotReading) returns (idx: int)
      requires Valid() && 0 < items <= MenuSize
      modifies this`filtered, this`lastIndex
      ensures Valid()
      ensures filtered == Filtered(old(filtered), raw)
      ensures lastIndex == MenuIndex(filtered, items)
      ensures idx == -1 || 0 <= idx < items
      ensures idx >= 0 <==> lastIndex != old(lastIndex)
      ensures idx >= 0 ==> idx == lastIndex
    {
      var value := ReadPot(raw);
      var stepSize := 4096 / items;
      var index := value / stepSize;
      index := Constrain(index, 0, items - 1);
      if index != lastIndex {
        lastIndex := index;
        return index;
      }
      return -1;
    }

    /** ejecutarTestRelays. */
    method RelayTest()
      requires Valid()
      modifies board
      ensures Valid() && board.initial == old(board.initial)
      ensures board.trace == old(board.trace) + RelayPulses(4)
    {
      for i := 0 to 4
        invariant board.Valid() && board.initial == old(board.initial)
        invariant board.trace == old(board.trace) + RelayPulses(i)
      {
        board.Do(DigitalWrite(Relay(i + 1), true));
        board.Do(DigitalWrite(Relay(i + 1), false));
      }
    }

    /** ejecutarTestCerradura. */
    method LockTest()
      requires Valid()
      modifies board
      ensures Valid() && board.initial == old(board.initial)
      ensures board.trace == old(board.trace) + LockPulse
    {
      board.Do(DigitalWrite(Lock, true));
      board.Do(DigitalWrite(Lock, false));
    }

    /** ejecutarTestServos: attach the three servos, sweep, detach. */
    method ServoTestRun()
      requires Valid()
      modifies board
      ensures Valid() && board.initial == old(board.initial)
      ensures board.trace == old(board.trace) + (AttachAll + SweepWrites(3) + DetachAll)
    {
      ghost var start := board.trace;
      AttachServos();
      Sweep();
      DetachServos();
      Regroup(start, AttachAll, SweepWrites(3), DetachAll);
    }

    /** The three attach calls of ejecutarTestServos. */
    method AttachServos()
      requires Valid()
      modifies board
      ensures Valid() && board.initial == old(board.initial)
      ensures board.trace == old(board.trace) + AttachAll
    {
      board.Do(ServoAttach(1));
      board.Do(ServoAttach(2));
      board.Do(ServoAttach(3));
    }

    /** The three detach calls that end ejecutarTestServos. */
    method DetachServos()
      requires Valid()
      modifies board
      ensures Valid() && board.initial == old(board.initial)
      ensures board.trace == old(board.trace) + DetachAll
    {
      board.Do(ServoDetach(1));
      board.Do(ServoDetach(2));
      board.Do(ServoDetach(3));
    }

    /** The angle loop of ejecutarTestServos. */
    method Sweep()
      requires Valid()
      modifies board
      ensures Valid() && board.initial == old(board.initial)
      ensures board.trace == old(board.trace) + SweepWrites(3)
    {
      var angles := SweepAngles;
      for j := 0 to 3
        invariant board.Valid() && board.initial == old(board.initial)
        invariant board.trace == old(board.trace) + SweepWrites(j)
      {
        var angle := angles[j];
        WriteAll(angle);
        assert SweepWrites(j + 1) == SweepWrites(j) + SweepStep(angle);
      }
    }

    /** One pass of the angle loop: the three servos written in order. */
    method WriteAll(angle: int)
      requires Valid()
      modifies board
      ensures Valid() && board.initial == old(board.initial)
      ensures board.trace == old(board.trace) + SweepStep(angle)
    {
      board.Do(ServoWrite(1, angle));
      board.Do(ServoWrite(2, angle));
      board.Do(ServoWrite(3, angle));
    }

    /** loopModoTest, with `raw` the pot reading of this pass. The DHT and
        GPS tests wait for a confirm press and clear it again. */
    method Loop(raw: PotReading)
      requires Valid()
      modifies this, board
      ensures Valid() && board.initial == old(board.initial)
      ensures filtered == Filtered(old(filtered), raw)
      ensures var k := MenuIndex(filtered, MenuSize);
        && lastIndex == k
        && testIndex == (if k != old(lastIndex) then k else old(testIndex))
      ensures !confirmPressed
      ensures board.trace == old(board.trace) + (if old(confirmPressed) then TestActions(testIndex) else [])
      ensures old(confirmPressed) && testIndex == BackItem ==>
        uiState == UiMainMenu && redrawMenu && firstRun
      ensures !(old(confirmPressed) && testIndex == BackItem) ==>
        uiState == old(uiState) && redrawMenu == old(redrawMenu) && !firstRun
    {
      var idx := ReadIndex(MenuSize, raw);
      if idx >= 0 && idx != testIndex {
        testIndex := idx;
      }
      if firstRun {
        firstRun := false;
      }
      if confirmPressed {
        confirmPressed := false;
        RunSelected();
      }
    }

    /** The switch of loopModoTest on the selected entry, once a confirm
        press has been consumed. */
    method RunSelected()
      requires Valid()
      modifies this`confirmPressed, this`uiState, this`redrawMenu, this`firstRun, board
      ensures Valid() && board.initial == old(board.initial)
      ensures confirmPressed == (old(confirmPressed) && testIndex != 2 && testIndex != 3)
      ensures board.trace == old(board.trace) + TestActions(testIndex)
      ensures testIndex == BackItem ==> uiState == UiMainMenu && redrawMenu && firstRun
      ensures testIndex != BackItem ==>
        uiState == old(uiState) && redrawMenu == old(redrawMenu) && firstRun == old(firstRun)
    {
      if testIndex == 0 {
        RelayTest();
      } else if testIndex == 1 {
        LockTest();
      } else if testIndex == 2 || testIndex == 3 {
        confirmPressed := false;
      } else if testIndex == 4 {
        ServoTestRun();
      } else {
        uiState := UiMainMenu;
        redrawMenu := true;
        firstRun := true;
      }
    }
  }
}
