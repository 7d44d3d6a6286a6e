/** Local mode: a text console whose lines are split into up to four
    space-separated words (category, action, target, value) and dispatched to
    the relays, the lock, the servos and the sensors. Console output is a list
    of Line values, one per line printed. */
module LocalServer {
  import opened Wrappers
  import opened Hardware
  import opened ArduinoString
  import Ldr
  import opened Sequences

  // ---------------------------------------------------------------------
  // Splitting a line into fields (getValue)
  // ---------------------------------------------------------------------

  /** Index of the first `sep` in `s`, or |s| when there is none. */
  function FirstSep(s: string, sep: char): (k: nat)
    ensures k <= |s|
    ensures forall j :: 0 <= j < k ==> s[j] != sep
    ensures k < |s| ==> s[k] == sep
  {
    if s == [] || s[0] == sep then 0 else 1 + FirstSep(s[1..], sep)
  }

  /** The fields getValue finds in `s`. Every separator before the last
      character closes a field; the last character always closes the last
      field and belongs to it, even when it is itself a separator. */
  function Fields(s: string, sep: char): seq<string>
    decreases |s|
  {
    if s == [] then []
    else
      var k := FirstSep(s[..|s| - 1], sep);
      if k < |s| - 1 then [s[..k]] + Fields(s[k + 1..], sep) else [s]
  }

  /** Field `i`, or "" when there are not that many fields. */
  function FieldAt(fields: seq<string>, i: nat): string {
    if i < |fields| then fields[i] else ""
  }

  /** The words joined with one separator between each two. */
  function Join(words: seq<string>, sep: char): string {
    if words == [] then ""
    else if |words| == 1 then words[0]
    else words[0] + [sep] + Join(words[1..], sep)
  }

  /** Splitting at the first field boundary, found at position `k`. */
  lemma FieldsSplit(s: string, sep: char, k: nat)
    requires k < |s|
    requires forall j :: 0 <= j < k ==> s[j] != sep
    requires s[k] == sep || k == |s| - 1
    ensures Fields(s, sep) == if k < |s| - 1 then [s[..k]] + Fields(s[k + 1..], sep) else [s]
  {
    var t := s[..|s| - 1];
    var f := FirstSep(t, sep);
    if k < |s| - 1 {
      assert t[k] == sep;
      assert f == k;
    } else {
      assert forall j :: 0 <= j < |t| ==> t[j] == s[j];
      assert f == |s| - 1;
    }
  }

  /** Joining the fields with the separator gives back the text: no
      character is lost or invented by the split. */
  lemma {:induction false} JoinFields(s: string, sep: char)
    ensures Join(Fields(s, sep), sep) == s
    decreases |s|
  {
    if s != [] {
      var k := FirstSep(s[..|s| - 1], sep);
      if k < |s| - 1 {
        var rest := s[k + 1..];
        JoinFields(rest, sep);
        assert Fields(rest, sep) != [];
        assert s == s[..k] + [sep] + rest;
      }
    }
  }

  /** When the text does not end with the separator, no field contains it. */
  lemma {:induction false} NoSeparatorInFields(s: string, sep: char)
    requires s == [] || s[|s| - 1] != sep
    ensures forall i :: 0 <= i < |Fields(s, sep)| ==> sep !in Fields(s, sep)[i]
    decreases |s|
  {
    if s != [] {
      var k := FirstSep(s[..|s| - 1], sep);
      if k < |s| - 1 {
        NoSeparatorInFields(s[k + 1..], sep);
        assert forall j :: 0 <= j < k ==> s[..k][j] == s[..|s| - 1][j];
      } else {
        assert forall j :: 0 <= j < |s| - 1 ==> s[j] == s[..|s| - 1][j];
      }
    }
  }

  /** A trailing separator is not dropped: it ends the last field. */
  lemma {:induction false} TrailingSeparatorKept(s: string, sep: char)
    requires |s| > 0 && s[|s| - 1] == sep
    ensures |Fields(s, sep)| > 0
    ensures var last := Fields(s, sep)[|Fields(s, sep)| - 1]; |last| > 0 && last[|last| - 1] == sep
    decreases |s|
  {
    var k := FirstSep(s[..|s| - 1], sep);
    if k < |s| - 1 {
      TrailingSeparatorKept(s[k + 1..], sep);
    }
  }

  /** A first word free of the separator, then the separator, then more
      text: the word is the first field. */
  lemma FieldsOfSeparated(w: string, sep: char, r: string)
    requires sep !in w && r != []
    ensures Fields(w + [sep] + r, sep) == [w] + Fields(r, sep)
  {
    var s := w + [sep] + r;
    FieldsSplit(s, sep, |w|);
    assert s[..|w|] == w && s[|w| + 1..] == r;
  }

  /** Splitting inverts joining, for non-empty words free of the separator. */
  lemma {:induction false} FieldsOfJoin(words: seq<string>, sep: char)
    requires |words| > 0
    requires forall i :: 0 <= i < |words| ==> words[i] != [] && sep !in words[i]
    ensures Fields(Join(words, sep), sep) == words
    decreases |words|
  {
    var w := words[0];
    if |words| == 1 {
      FieldsSplit(w, sep, |w| - 1);
    } else {
      var rest := words[1..];
      assert |Join(rest, sep)| >= |rest[0]| > 0;
      FieldsOfSeparated(w, sep, Join(rest, sep));
      FieldsOfJoin(rest, sep);
    }
  }

  /** Where the next field starts, given the end of the previous one. */
  function Resume(end: int, n: nat): nat
    requires -1 <= end <= n
  {
    if end < n then end + 1 else n
  }

  /** One field boundary found at `i` while scanning from `st`: the field
      ends before the separator, or after the last character. */
  lemma FieldsStep(data: string, sep: char, st: nat, i: nat)
    requires st <= i < |data|
    requires forall j :: st <= j < i ==> data[j] != sep
    requires data[i] == sep || i == |data| - 1
    ensures var e := if i == |data| - 1 then i + 1 else i;
      Fields(data[st..], sep) == [data[st..e]] + Fields(data[Resume(e, |data|)..], sep)
  {
    var t := data[st..];
    FieldsSplit(t, sep, i - st);
    if i < |data| - 1 {
      assert t[i - st + 1..] == data[i + 1..];
      assert t[..i - st] == data[st..i];
    } else {
      assert data[|data|..] == [];
      assert t == data[st..i + 1];
    }
  }

  /** The field that ends at `i` moves from the unread rest to the fields
      completed. */
  lemma TakeField(data: string, sep: char, taken: seq<string>, st: nat, i: nat)
    requires st <= i < |data|
    requires forall j :: st <= j < i ==> data[j] != sep
    requires data[i] == sep || i == |data| - 1
    ensures var e := if i == |data| - 1 then i + 1 else i;
      taken + Fields(data[st..], sep) == (taken + [data[st..e]]) + Fields(data[Resume(e, |data|)..], sep)
  {
    FieldsStep(data, sep, st, i);
  }

  /** getValue's scan from position `i` on, with `found` fields completed
      and the last of them at `data[s0..s1]`: the value the loop returns. */
  function ScanFrom(data: string, sep: char, index: nat, i: nat, found: nat, s0: int, s1: int): string
    requires -1 <= s1 <= i <= |data| && (s1 == i ==> i == |data|)
    requires found > 0 ==> 0 <= s0 <= s1
    decreases |data| - i
  {
    if i < |data| && found <= index then
      if data[i] == sep || i == |data| - 1 then
        ScanFrom(data, sep, index, i + 1, found + 1, s1 + 1, if i == |data| - 1 then i + 1 else i)
      else
        ScanFrom(data, sep, index, i + 1, found, s0, s1)
    else if found > index then data[s0..s1]
    else ""
  }

  /** One step of the scan at a field boundary. */
  lemma ScanFromTake(data: string, sep: char, index: nat, i: nat, found: nat, s0: int, s1: int)
    requires -1 <= s1 < i < |data| && (found > 0 ==> 0 <= s0 <= s1)
    requires found <= index && (data[i] == sep || i == |data| - 1)
    ensures var e := if i == |data| - 1 then i + 1 else i;
      ScanFrom(data, sep, index, i, found, s0, s1) == ScanFrom(data, sep, index, i + 1, found + 1, s1 + 1, e)
  {
  }

  /** The scan stops once the line is read or field `index` is complete. */
  lemma ScanFromEnd(data: string, sep: char, index: nat, i: nat, found: nat, s0: int, s1: int)
    requires -1 <= s1 <= i <= |data| && (s1 == i ==> i == |data|)
    requires found > 0 ==> 0 <= s0 <= s1
    requires i == |data| || found > index
    ensures ScanFrom(data, sep, index, i, found, s0, s1) == if found > index then data[s0..s1] else ""
  {
  }

  /** Field `index` of completed fields followed by the rest. */
  lemma FieldAtAppend(taken: seq<string>, rest: seq<string>, index: nat)
    ensures index < |taken| ==> FieldAt(taken + rest, index) == taken[index]
    ensures rest == [] ==> FieldAt(taken + rest, index) == FieldAt(taken, index)
  {
    if rest == [] {
      assert taken + rest == taken;
    }
  }

  /** The scan returns field `index` of the line: with the fields `taken`
      completed and the one in progress starting at `st`, it returns field
      `index` of `taken` followed by the fields of the unread rest. */
  lemma {:induction false} ScanFromFields(data: string, sep: char, index: nat, i: nat, found: nat, s0: int, s1: int,
                                         st: nat, taken: seq<string>)
    requires -1 <= s1 <= i <= |data| && (s1 == i ==> i == |data|)
    requires found > 0 ==> 0 <= s0 <= s1
    requires st == Resume(s1, |data|) <= i && (i == |data| ==> st == |data|)
    requires forall j :: st <= j < i ==> data[j] != sep
    requires found == |taken| <= index + 1
    requires found > 0 ==> taken[found - 1] == data[s0..s1]
    ensures ScanFrom(data, sep, index, i, found, s0, s1) == FieldAt(taken + Fields(data[st..], sep), index)
    decreases |data| - i
  {
    if i < |data| && found <= index {
      if data[i] == sep || i == |data| - 1 {
        var e := if i == |data| - 1 then i + 1 else i;
        TakeField(data, sep, taken, st, i);
        ScanFromTake(data, sep, index, i, found, s0, s1);
        ScanFromFields(data, sep, index, i + 1, found + 1, s1 + 1, e, Resume(e, |data|), taken + [data[st..e]]);
      } else {
        ScanFromFields(data, sep, index, i + 1, found, s0, s1, st, taken);
      }
    } else {
      ScanFromEnd(data, sep, index, i, found, s0, s1);
      if found <= index {
        assert data[st..] == [];
      }
      FieldAtAppend(taken, Fields(data[st..], sep), index);
    }
  }

  /** getValue: field `index` of `data`, or "" past the last field. */
  method GetValue(data: string, separator: char, index: nat) returns (r: string)
    ensures r == FieldAt(Fields(data, separator), index)
  {
    var found := 0;
    var strIndex0, strIndex1 := 0, -1;
    var maxIndex := |data| - 1;
    var i := 0;
    while i <= maxIndex && found <= index
      invariant -1 <= strIndex1 <= i <= |data| && (strIndex1 == i ==> i == |data|)
      invariant found > 0 ==> 0 <= strIndex0 <= strIndex1
      invariant ScanFrom(data, separator, index, i, found, strIndex0, strIndex1) == ScanFrom(data, separator, index, 0, 0, 0, -1)
      decreases |data| - i
    {
      if data[i] == separator || i == maxIndex {
        found := found + 1;
        strIndex0 := strIndex1 + 1;
        strIndex1 := if i == maxIndex then i + 1 else i;
      }
      i := i + 1;
    }
    r := if found > index then data[strIndex0..strIndex1] else "";
    ScanFromFields(data, separator, index, 0, 0, 0, -1, 0, []);
    assert [] + Fields(data[0..], separator) == Fields(data, separator) by {
      assert data[0..] == data;
    }
  }

  // ---------------------------------------------------------------------
  // Commands
  // ---------------------------------------------------------------------

  /** The four words of a console line. */
  datatype Command = Command(category: string, action: string, target: string, value: string)

  /** procesarComando's parsing: trim the line, then take fields 0..3. */
  function Parse(line: string): Command {
    var fields := Fields(Trim(line), ' ');
    Command(FieldAt(fields, 0), FieldAt(fields, 1), FieldAt(fields, 2), FieldAt(fields, 3))
  }

  /** No word of a parsed command contains a space. */
  lemma ParsedWordsHaveNoSpace(line: string)
    ensures var c := Parse(line);
      ' ' !in c.category && ' ' !in c.action && ' ' !in c.target && ' ' !in c.value
  {
    var t := Trim(line);
    assert t == [] || !IsSpace(t[|t| - 1]);
    NoSeparatorInFields(t, ' ');
  }

  /** Words without white space, joined with single spaces, parse back to
      themselves; missing words read as "". */
  lemma ParseJoinedWords(words: seq<string>)
    requires 0 < |words| <= 4
    requires forall i :: 0 <= i < |words| ==> words[i] != [] && forall j :: 0 <= j < |words[i]| ==> !IsSpace(words[i][j])
    ensures Parse(Join(words, ' ')) ==
      Command(FieldAt(words, 0), FieldAt(words, 1), FieldAt(words, 2), FieldAt(words, 3))
  {
    var s := Join(words, ' ');
    JoinBounds(words, ' ');
    assert Trim(s) == s;
    FieldsOfJoin(words, ' ');
  }

  /** A joined text starts with the first word's first character and ends
      with the last word's last character. */
  lemma {:induction false} JoinBounds(words: seq<string>, sep: char)
    requires |words| > 0 && forall i :: 0 <= i < |words| ==> words[i] != []
    ensures var s := Join(words, sep);
      |s| > 0 && s[0] == words[0][0] && s[|s| - 1] == words[|words| - 1][|words[|words| - 1]| - 1]
    decreases |words|
  {
    if |words| > 1 {
      var rest := words[1..];
      if |rest| > 1 {
        JoinBounds(rest, sep);
      }
    }
  }

  /** One console message (the help text is a single message); the wording
      is not modelled, only which message is printed and what it reports. */
  datatype Line =
    | RelaySwitched(target: string, on: bool)
    | RelayStatus(target: string, on: bool)
    | UnknownRelay
    | LockOpening
    | LockClosed
    | LockSwitched(on: bool)
    | ServoMoved(servo: ServoId, angle: int)
    | UnknownServo
    | DhtValues(temperature: int, humidity: int)
    | DhtFailed(code: int)
    | LightLevel(percent: int, raw: int)
    | GpsPosition(fix: GpsFix)
    | GpsSearching
    | InfoHeader
    | InfoAddress
    | InfoSignal
    | InfoUptime
    | Restarting
    | CommandReference
    | Unrecognized

  /** What the sensors report while a command runs. The light sensor is read
      twice, once by getAnalogLDR and once inside getPercentageLDR. */
  datatype Readings = Readings(dht: DhtReading, ldrRaw: Ldr.AdcSample, ldrForPercent: Ldr.AdcSample, gps: Option<GpsFix>)

  /** The effect of a command: writes on the outputs and printed lines. */
  datatype Reply = Reply(actions: seq<Action>, lines: seq<Line>)

  function Concat(a: Reply, b: Reply): Reply {
    Reply(a.actions + b.actions, a.lines + b.lines)
  }

  function RelayTarget(s: string): Option<RelayId> {
    if Equals(s, "1") then Some(1) else if Equals(s, "2") then Some(2)
    else if Equals(s, "3") then Some(3) else if Equals(s, "4") then Some(4) else None
  }

  function ServoTarget(s: string): Option<ServoId> {
    if Equals(s, "1") then Some(1) else if Equals(s, "2") then Some(2) else if Equals(s, "3") then Some(3) else None
  }

  /** The light reading of the console's sensor, which keeps its default
      calibration and a smoothing count of 1 (one read per reading). */
  function LightLine(r: Readings): Line {
    LightLevel(Ldr.Percentage(r.ldrForPercent, Ldr.DefaultMinRaw, Ldr.DefaultMaxRaw), r.ldrRaw)
  }

  /** `sensor <which>` for one sensor. */
  function SensorReply(which: string, r: Readings): Reply {
    if Equals(which, "dht") then
      Reply([], [if r.dht.status == 0 then DhtValues(r.dht.temperature, r.dht.humidity) else DhtFailed(r.dht.status)])
    else if Equals(which, "ldr") then Reply([], [LightLine(r)])
    else if Equals(which, "gps") then Reply([], [if r.gps.Some? then GpsPosition(r.gps.value) else GpsSearching])
    else Reply([], [])
  }

  /** What procesarComando does with a parsed command, given the output
      levels before it and the sensor readings. */
  function Respond(c: Command, l: Levels, r: Readings): Reply
    requires l.WellFormed()
  {
    if Equals(c.category, "relay") then
      match RelayTarget(c.target)
      case None => Reply([], [UnknownRelay])
      case Some(n) =>
        if Equals(c.action, "set") then
          Reply([DigitalWrite(Relay(n), Equals(c.value, "on"))], [RelaySwitched(c.target, Equals(c.value, "on"))])
        else if Equals(c.action, "get") then Reply([], [RelayStatus(c.target, l.Level(Relay(n)))])
        else Reply([], [])
    else if Equals(c.category, "lock") then
      if Equals(c.action, "open") then
        Reply([DigitalWrite(Lock, true), DigitalWrite(Lock, false)], [LockOpening, LockClosed])
      else if Equals(c.action, "set") then
        Reply([DigitalWrite(Lock, Equals(c.target, "on"))], [LockSwitched(Equals(c.target, "on"))])
      else Reply([], [])
    else if Equals(c.category, "servo") then
      if Equals(c.action, "set") then
        var v := ToInt(c.value);
        var angle := if v < 0 then 0 else if v > 180 then 180 else v;
        match ServoTarget(c.target)
        case None => Reply([], [UnknownServo])
        case Some(s) => Reply([ServoWrite(s, angle)], [ServoMoved(s, angle)])
      else Reply([], [])
    else if Equals(c.category, "sensor") then
      if Equals(c.action, "all") then
        Concat(Concat(SensorReply("dht", r), SensorReply("ldr", r)), SensorReply("gps", r))
      else SensorReply(c.action, r)
    else if Equals(c.category, "sys") then
      if Equals(c.action, "info") then Reply([], [InfoHeader, InfoAddress, InfoSignal, InfoUptime])
      else if Equals(c.action, "reset") then Reply([], [Restarting])
      else Reply([], [])
    else if Equals(c.category, "help") || Equals(c.category, "?") then Reply([], [CommandReference])
    else Reply([], [Unrecognized])
  }

  predicate IsSensorAll(line: string) {
    Equals(Parse(line).category, "sensor") && Equals(Parse(line).action, "all")
  }

  /** `sensor all`, and the `sensor dht`, `sensor ldr` and `sensor gps`
      procesarComando re-issues for it, parse to the expected words. */
  lemma ParseSensorCommand(which: string)
    requires which == "dht" || which == "ldr" || which == "gps" || which == "all"
    ensures Parse("sensor " + which) == Command("sensor", which, "", "")
  {
    assert "sensor " + which == Join(["sensor", which], ' ');
    ParseJoinedWords(["sensor", which]);
  }

  /** Helper: a line that parses to `sensor dht`, `sensor ldr` or `sensor
      gps` is not the recursive case. */
  lemma NotSensorAll(line: string, which: string)
    requires Parse(line) == Command("sensor", which, "", "")
    requires which == "dht" || which == "ldr" || which == "gps"
    ensures !IsSensorAll(line)
  {
    assert |which| == 3 && which[..3][0] == which[0] != 'a';
  }

  // ---------------------------------------------------------------------
  // Properties of the dispatcher
  // ---------------------------------------------------------------------

  /** A relay number other than 1..4 is reported and writes nothing. */
  lemma UnknownRelayHasNoEffect(c: Command, l: Levels, r: Readings)
    requires l.WellFormed() && Equals(c.category, "relay")
    requires !Equals(c.target, "1") && !Equals(c.target, "2") && !Equals(c.target, "3") && !Equals(c.target, "4")
    ensures Respond(c, l, r) == Reply([], [UnknownRelay])
  {
  }

  /** `relay set n v` drives relay n high exactly when v is "on", and leaves
      every other output as it was; `relay get` writes nothing. */
  lemma RelaySetDrivesOnlyItsRelay(c: Command, l: Levels, r: Readings, n: RelayId, other: Output)
    requires l.WellFormed() && Equals(c.category, "relay") && RelayTarget(c.target) == Some(n)
    ensures Equals(c.action, "set") ==>
      && Run(l, Respond(c, l, r).actions).Level(Relay(n)) == Equals(c.value, "on")
      && (other != Relay(n) ==> Run(l, Respond(c, l, r).actions).Level(other) == l.Level(other))
    ensures Equals(c.action, "get") ==> Respond(c, l, r) == Reply([], [RelayStatus(c.target, l.Level(Relay(n)))])
  {
    if Equals(c.action, "set") {
      var a := DigitalWrite(Relay(n), Equals(c.value, "on"));
      assert Run(l, [a]) == Run(Apply(l, a), []);
      ApplyWrite(l, Relay(n), Equals(c.value, "on"), other);
    }
  }

  /** `lock open` is a high-then-low pulse and leaves the lock low; `lock
      set` drives it high exactly when the target word is "on". */
  lemma LockCommands(c: Command, l: Levels, r: Readings)
    requires l.WellFormed() && Equals(c.category, "lock")
    ensures Equals(c.action, "open") ==>
      Respond(c, l, r).actions == [DigitalWrite(Lock, true), DigitalWrite(Lock, false)]
      && !Run(l, Respond(c, l, r).actions).lock
    ensures Equals(c.action, "set") ==> Run(l, Respond(c, l, r).actions).lock == Equals(c.target, "on")
  {
    var acts := Respond(c, l, r).actions;
    if Equals(c.action, "open") {
      assert Run(l, acts) == Run(Apply(l, acts[0]), acts[1..]);
      assert Run(Apply(l, acts[0]), acts[1..]) == Run(Apply(Apply(l, acts[0]), acts[1]), []);
    } else if Equals(c.action, "set") {
      assert Run(l, acts) == Run(Apply(l, acts[0]), []);
    }
  }

  /** `servo set` writes an angle clamped into [0, 180], equal to the
      requested one when that is in range; an unknown servo writes nothing. */
  lemma ServoAngleClamped(c: Command, l: Levels, r: Readings)
    requires l.WellFormed() && Equals(c.category, "servo") && Equals(c.action, "set")
    ensures ServoTarget(c.target) == None ==> Respond(c, l, r) == Reply([], [UnknownServo])
    ensures ServoTarget(c.target).Some? ==>
      var acts := Respond(c, l, r).actions;
      |acts| == 1 && acts[0].ServoWrite? && acts[0].servo == ServoTarget(c.target).value
      && 0 <= acts[0].angle <= 180
      && (0 <= ToInt(c.value) <= 180 ==> acts[0].angle == ToInt(c.value))
  {
    EqualsOne(c.category, "servo", "relay");
    EqualsOne(c.category, "servo", "lock");
  }

  /** `sensor all` prints exactly what `sensor dht`, `sensor ldr` and
      `sensor gps` print, in that order, and writes nothing. */
  lemma SensorAllIsThreeQueries(c: Command, l: Levels, r: Readings)
    requires l.WellFormed() && Equals(c.category, "sensor") && Equals(c.action, "all")
    ensures Respond(c, l, r) ==
      Concat(Concat(Respond(Command("sensor", "dht", "", ""), l, r), Respond(Command("sensor", "ldr", "", ""), l, r)),
             Respond(Command("sensor", "gps", "", ""), l, r))
    ensures Respond(c, l, r).actions == []
  {
    SensorCommandReply("dht", l, r);
    SensorCommandReply("ldr", l, r);
    SensorCommandReply("gps", l, r);
  }

  /** Helper: `sensor <which>` for one named sensor is that sensor's reply. */
  lemma SensorCommandReply(which: string, l: Levels, r: Readings)
    requires l.WellFormed() && (which == "dht" || which == "ldr" || which == "gps")
    ensures Respond(Command("sensor", which, "", ""), l, r) == SensorReply(which, r)
  {
    PlainWord("sensor");
    PlainWord(which);
  }

  /** `recvMsg` keeps a NUL byte in the command, but the word comparisons
      end at it: "relay set 1 on" followed by a NUL switches relay 1 on. */
  lemma NulEndsValueWord(l: Levels, r: Readings)
    requires l.WellFormed()
    ensures Respond(Command("relay", "set", "1", "on\0"), l, r).actions == [DigitalWrite(Relay(1), true)]
  {
  }

  /** An unrecognised category prints one error and changes no output. */
  lemma UnknownCategoryHasNoEffect(c: Command, l: Levels, r: Readings)
    requires l.WellFormed()
    requires CStr(c.category) !in {"relay", "lock", "servo", "sensor", "sys", "help", "?"}
    ensures Respond(c, l, r) == Reply([], [Unrecognized])
  {
    forall literal | literal in {"relay", "lock", "servo", "sensor", "sys", "help", "?"}
      ensures !Equals(c.category, literal)
    {
      EqualsComparesCStr(c.category, literal);
    }
  }

  /** "relay set 5 on" is rejected and leaves every relay as it was. */
  lemma RelayFiveRejected(l: Levels, r: Readings)
    requires l.WellFormed()
    ensures Respond(Parse("relay set 5 on"), l, r) == Reply([], [UnknownRelay])
  {
    ParseRelaySetFiveOn();
    RelayFiveCommand(Parse("relay set 5 on"), l, r);
  }

  /** Helper: the parsed words of "relay set 5 on" name no relay. */
  lemma RelayFiveCommand(c: Command, l: Levels, r: Readings)
    requires l.WellFormed() && c == Command("relay", "set", "5", "on")
    ensures Respond(c, l, r) == Reply([], [UnknownRelay])
  {
    PlainWord("relay");
    PlainWord("5");
    UnknownRelayHasNoEffect(c, l, r);
  }

  lemma ParseRelaySetFiveOn()
    ensures Parse("relay set 5 on") == Command("relay", "set", "5", "on")
  {
    assert "relay set 5 on" == Join(["relay", "set", "5", "on"], ' ');
    ParseJoinedWords(["relay", "set", "5", "on"]);
  }

  /** The help text advertises `sensor GPS`, but the action is compared
      case-sensitively with "gps": that command prints nothing and writes
      nothing. */
  lemma AdvertisedGpsQueryIsSilent(l: Levels, r: Readings)
    requires l.WellFormed()
    ensures Respond(Parse("sensor GPS"), l, r) == Reply([], [])
  {
    ParseAdvertisedGps();
    GpsWordCommand(Parse("sensor GPS"), l, r);
  }

  /** Helper: the parsed words of "sensor GPS" name no sensor. */
  lemma GpsWordCommand(c: Command, l: Levels, r: Readings)
    requires l.WellFormed() && c == Command("sensor", "GPS", "", "")
    ensures Respond(c, l, r) == Reply([], [])
  {
    PlainWord("sensor");
    PlainWord("GPS");
    UnknownSensorQuery(c, l, r);
  }

  /** A sensor query for anything but all, dht, ldr or gps does nothing. */
  lemma UnknownSensorQuery(c: Command, l: Levels, r: Readings)
    requires l.WellFormed() && Equals(c.category, "sensor")
    requires !Equals(c.action, "all") && !Equals(c.action, "dht") && !Equals(c.action, "ldr") && !Equals(c.action, "gps")
    ensures Respond(c, l, r) == Reply([], [])
  {
    EqualsOne(c.category, "sensor", "relay");
    EqualsOne(c.category, "sensor", "lock");
    EqualsOne(c.category, "sensor", "servo");
  }

  lemma ParseAdvertisedGps()
    ensures Parse("sensor GPS") == Command("sensor", "GPS", "", "")
  {
    assert "sensor GPS" == Join(["sensor", "GPS"], ' ');
    ParseJoinedWords(["sensor", "GPS"]);
  }

  // ---------------------------------------------------------------------
  // The console server
  // ---------------------------------------------------------------------

  class Server {
    const board: Board
    /** servidorActivo */
    var active: bool
    /** Every line printed on the web console, in order. */
    var console: seq<Line>

    ghost predicate Valid()
      reads this, board
    {
      board.Valid()
    }

    constructor (board: Board)
      requires board.Valid()
      ensures Valid() && this.board == board && !active && console == []
    {
      this.board := board;
      active := false;
      console := [];
    }

    /** iniciarServidorLocal: fails, changing nothing, while Wi-Fi is down;
        otherwise attaches the three servos and marks the server active. */
    method Start(wifiConnected: bool) returns (ok: bool)
      requires Valid()
      modifies this, board
      ensures Valid() && board.initial == old(board.initial) && console == old(console)
      ensures ok == wifiConnected
      ensures active == (old(active) || wifiConnected)
      ensures board.trace == old(board.trace) +
        (if wifiConnected then [ServoAttach(1), ServoAttach(2), ServoAttach(3)] else [])
    {
      if !wifiConnected {
        return false;
      }
      board.Do(ServoAttach(1));
      board.Do(ServoAttach(2));
      board.Do(ServoAttach(3));
      active := true;
      return true;
    }

    /** detenerServidorLocal: nothing when inactive, otherwise clears the
        flag; a second call changes nothing. */
    method Stop()
      requires Valid()
      modifies this
      ensures Valid() && !active && console == old(console)
    {
      if !active {
        return;
      }
      active := false;
    }

    /** procesarComando: trim the line, split it into four words and
        dispatch on the category. */
    method ProcessCommand(cmd: string, readings: Readings)
      requires Valid()
      modifies this, board
      ensures Valid() && board.initial == old(board.initial) && active == old(active)
      ensures var reply := Respond(Parse(cmd), old(board.State()), readings);
        && board.trace == old(board.trace) + reply.actions
        && board.State() == Run(old(board.State()), reply.actions)
        && console == old(console) + reply.lines
      decreases if IsSensorAll(cmd) then 2 else 0
    {
      var line := Trim(cmd);
      var categoria := GetValue(line, ' ', 0);
      var accion := GetValue(line, ' ', 1);
      var objetivo := GetValue(line, ' ', 2);
      var valor := GetValue(line, ' ', 3);
      var c := Command(categoria, accion, objetivo, valor);
      assert c == Parse(cmd);

      if Equals(categoria, "relay") {
        RelayCommand(c, readings);
      } else if Equals(categoria, "lock") {
        LockCommand(c, readings);
      } else if Equals(categoria, "servo") {
        ServoCommand(c, readings);
      } else if Equals(categoria, "sensor") {
        if Equals(accion, "all") {
          SensorAll(c, readings);
        } else {
          SensorQuery(c, readings);
        }
      } else {
        ConsoleCommand(c, readings);
      }
    }

    /** The `sys`, `help` and `?` commands and the fallback for an unknown
        category: they only write to the console. */
    method ConsoleCommand(c: Command, readings: Readings)
      requires Valid()
      requires !Equals(c.category, "relay") && !Equals(c.category, "lock") && !Equals(c.category, "servo") && !Equals(c.category, "sensor")
      modifies this
      ensures Valid() && board.initial == old(board.initial) && active == old(active)
      ensures var reply := Respond(c, old(board.State()), readings);
        && board.trace == old(board.trace) + reply.actions
        && board.State() == Run(old(board.State()), reply.actions)
        && console == old(console) + reply.lines
    {
      ghost var before := board.State();
      if Equals(c.category, "sys") {
        if Equals(c.action, "info") {
          console := console + [InfoHeader, InfoAddress, InfoSignal, InfoUptime];
        } else if Equals(c.action, "reset") {
          console := console + [Restarting];
        }
      } else if Equals(c.category, "help") || Equals(c.category, "?") {
        console := console + [CommandReference];
      } else {
        console := console + [Unrecognized];
      }
      assert board.trace == board.trace + [];
      assert Run(before, []) == before;
    }

    /** The `relay` branch: a number outside 1..4 is reported; `set`
        drives the relay, `get` reports its level. */
    method RelayCommand(c: Command, readings: Readings)
      requires Valid() && Equals(c.category, "relay")
      modifies this, board
      ensures Valid() && board.initial == old(board.initial) && active == old(active)
      ensures var reply := Respond(c, old(board.State()), readings);
        && board.trace == old(board.trace) + reply.actions
        && board.State() == Run(old(board.State()), reply.actions)
        && console == old(console) + reply.lines
    {
      ghost var before := board.State();
      assert Run(before, []) == before;
      var pin := RelayTarget(c.target);
      if pin.Some? {
        if Equals(c.action, "set") {
          var estado := Equals(c.value, "on");
          board.Do(DigitalWrite(Relay(pin.value), estado));
          console := console + [RelaySwitched(c.target, estado)];
          assert Run(before, [DigitalWrite(Relay(pin.value), estado)]) == Run(board.State(), []);
        } else if Equals(c.action, "get") {
          var estado := board.relays[pin.value - 1];
          console := console + [RelayStatus(c.target, estado)];
        }
      } else {
        console := console + [UnknownRelay];
      }
      assert old(board.trace) + [] == old(board.trace);
    }

    /** The `lock` branch: `open` pulses the lock high then low (the
        three-second hold between the writes is not modelled); `set` drives
        it high exactly when the target word is "on". */
    method LockCommand(c: Command, readings: Readings)
      requires Valid() && Equals(c.category, "lock")
      modifies this, board
      ensures Valid() && board.initial == old(board.initial) && active == old(active)
      ensures var reply := Respond(c, old(board.State()), readings);
        && board.trace == old(board.trace) + reply.actions
        && board.State() == Run(old(board.State()), reply.actions)
        && console == old(console) + reply.lines
    {
      ghost var before := board.State();
      assert Run(before, []) == before;
      if Equals(c.action, "open") {
        console := console + [LockOpening];
        board.Do(DigitalWrite(Lock, true));
        ghost var mid := board.State();
        board.Do(DigitalWrite(Lock, false));
        console := console + [LockClosed];
        assert Run(mid, [DigitalWrite(Lock, false)]) == Run(board.State(), []);
        assert Run(before, [DigitalWrite(Lock, true), DigitalWrite(Lock, false)])
            == Run(mid, [DigitalWrite(Lock, false)]);
        assert old(board.trace) + [DigitalWrite(Lock, true)] + [DigitalWrite(Lock, false)]
            == old(board.trace) + [DigitalWrite(Lock, true), DigitalWrite(Lock, false)];
      } else if Equals(c.action, "set") {
        var estado := Equals(c.target, "on");
        board.Do(DigitalWrite(Lock, estado));
        console := console + [LockSwitched(estado)];
        assert Run(before, [DigitalWrite(Lock, estado)]) == Run(board.State(), []);
      }
      assert old(board.trace) + [] == old(board.trace);
    }

    /** The `servo` branch: the angle is read with toInt and clamped into
        [0, 180] before the servo number is checked. */
    method ServoCommand(c: Command, readings: Readings)
      requires Valid() && Equals(c.category, "servo")
      modifies this, board
      ensures Valid() && board.initial == old(board.initial) && active == old(active)
      ensures var reply := Respond(c, old(board.State()), readings);
        && board.trace == old(board.trace) + reply.actions
        && board.State() == Run(old(board.State()), reply.actions)
        && console == old(console) + reply.lines
    {
      ghost var before := board.State();
      assert Run(before, []) == before;
      if Equals(c.action, "set") {
        var angulo := ToInt(c.value);
        if angulo < 0 {
          angulo := 0;
        }
        if angulo > 180 {
          angulo := 180;
        }
        var servo := ServoTarget(c.target);
        if servo.Some? {
          board.Do(ServoWrite(servo.value, angulo));
          console := console + [ServoMoved(servo.value, angulo)];
          assert Run(before, [ServoWrite(servo.value, angulo)]) == Run(board.State(), []);
        } else {
          console := console + [UnknownServo];
        }
      }
      assert old(board.trace) + [] == old(board.trace);
    }

    /** `sensor dht`, `sensor ldr`, `sensor gps` or an unknown sensor: only
        prints. */
    method SensorQuery(c: Command, readings: Readings)
      requires Valid() && Equals(c.category, "sensor") && !Equals(c.action, "all")
      modifies this
      ensures Valid() && active == old(active)
      ensures Respond(c, board.State(), readings).actions == []
      ensures console == old(console) + Respond(c, board.State(), readings).lines
      ensures var reply := Respond(c, old(board.State()), readings);
        && board.trace == old(board.trace) + reply.actions
        && board.State() == Run(old(board.State()), reply.actions)
    {
      assert board.trace == board.trace + [];
      assert Run(board.State(), []) == board.State();
      if Equals(c.action, "dht") {
        var res := readings.dht.status;
        if res == 0 {
          console := console + [DhtValues(readings.dht.temperature, readings.dht.humidity)];
        } else {
          console := console + [DhtFailed(res)];
        }
      } else if Equals(c.action, "ldr") {
        console := console + [LightLine(readings)];
      } else if Equals(c.action, "gps") {
        if readings.gps.Some? {
          console := console + [GpsPosition(readings.gps.value)];
        } else {
          console := console + [GpsSearching];
        }
      }
    }

    /** `sensor all` re-issues the three single-sensor commands in turn. */
    method SensorAll(c: Command, readings: Readings)
      requires Valid() && Equals(c.category, "sensor") && Equals(c.action, "all")
      modifies this, board
      ensures Valid() && board.initial == old(board.initial) && active == old(active)
      ensures board.trace == old(board.trace) && board.State() == old(board.State())
      ensures console == old(console) + Respond(c, old(board.State()), readings).lines
      ensures var reply := Respond(c, old(board.State()), readings);
        && board.trace == old(board.trace) + reply.actions
        && board.State() == Run(old(board.State()), reply.actions)
      decreases 1
    {
      ghost var l := board.State();
      ghost var rd := Respond(Command("sensor", "dht", "", ""), l, readings);
      ghost var rl := Respond(Command("sensor", "ldr", "", ""), l, readings);
      ghost var rg := Respond(Command("sensor", "gps", "", ""), l, readings);
      SensorAllIsThreeQueries(c, l, readings);
      assert rd.actions == [] && rl.actions == [] && rg.actions == [];
      assert Run(l, []) == l;
      ParseSensorCommand("dht");
      NotSensorAll("sensor " + "dht", "dht");
      ProcessCommand("sensor " + "dht", readings);
      assert console == old(console) + rd.lines;
      ParseSensorCommand("ldr");
      NotSensorAll("sensor " + "ldr", "ldr");
      ProcessCommand("sensor " + "ldr", readings);
      assert console == old(console) + rd.lines + rl.lines;
      ghost var printed := console;
      assert board.State() == l;
      ParseSensorCommand("gps");
      NotSensorAll("sensor " + "gps", "gps");
      ProcessCommand("sensor " + "gps", readings);
      assert console == printed + rg.lines;
      Regroup(old(console), rd.lines, rl.lines, rg.lines);
      assert board.trace == old(board.trace) + [];
    }
  }
}
