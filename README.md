# Orion home-automation controller: a verified model

This project models the control core of the Orion ESP32 firmware, which
runs four relays, an electronic lock and three servos and reads a DHT11, an
LDR and a GPS receiver. It proves properties of the model. The core has
four parts:

- **The LDR_10K light-sensor driver** (`ldr.dfy`).
  - The class keeps its pin, its calibration pair and its smoothing count.
  - It averages reads, maps a reading into [0, 1] and rounds it to a clamped
    percentage.
- **The local console** (`local_server.dfy`).
  - `getValue` splits a command line into words.
  - `procesarComando` dispatches on the category, action, target and value.
  - The server keeps an active flag.
- **The cloud bridge** (`cloud_mode.dfy`).
  - The MQTT callback drives relays and the lock and echoes their state.
  - The lock relocks automatically after 3 s.
  - Telemetry is gated to one cycle every 5 s and goes to MQTT and InfluxDB.
  - Home-Assistant discovery announcements are published.
  - Reconnect subscribes and then announces.
  - One pass of the main loop is specified as a whole. The lock output is
    high only while the relock is armed, and after every pass an armed
    relock is at most 3 s old.
- **The self-test mode** (`test_mode.dfy`).
  - The potentiometer reading goes through a low-pass filter.
  - The filtered value selects a menu entry.
  - The menu loop dispatches the selected test.
  - The relay, lock and servo tests each produce a pin sequence.

Shared pieces:

- `hardware.dfy` holds the outputs, their GPIOs and the output actions.
- Its `Board` class keeps the output levels and a trace of every write. Its
  invariant says the levels are what the trace produces.
- `sequences.dfy` holds generic helper facts about appended sequences.
- `arduino_string.dfy` holds the parts of Arduino's `String` the core
  relies on: `trim`, `toInt`, `endsWith`, `String(int)`, `c_str()` and
  `==` against a literal. The last two stop at the first NUL character,
  which both the console and the MQTT callback can receive.

Modelling conventions:

- Every pin write goes through `Board.Do`. A method's contract therefore
  states the exact trace it appends, and the `Run` function gives the
  levels that trace produces.
- Network operations are appended to a log of events: connect attempts,
  subscriptions, publishes and database writes. Their contracts state the
  exact events.
- `millis()` is an unsigned 32-bit value, and elapsed time is computed
  modulo 2^32.
- Inputs from the outside world are parameters: ADC reads, DHT results,
  the GPS fix, inbound MQTT messages, connect results and the current time.

## Model

Members without a row (`RelockDue`, `TelemetryDue`, `SensorsDocument`,
`GpsDocument`, `Lux`, `DiscoveryTopic`, `Unit`, `AnnouncementDocument`,
`DecimalString`, `Mean`, `Constrain`, `PublishLights`, `PublishOthers`,
`UnknownSensorQuery`, `RelayOneRoutes` to `RelayFourRoutes`, and the
helpers) are parts of the rowed members that use them, and are covered by
those rows.

| member | source | states |
|---|---|---|
| Hardware.PinsDistinct | src/local_server.cpp:14-27 | The relays, the lock and the servos use pairwise distinct GPIOs (26, 27, 14, 12, 13; 15, 2, 4). |
| Hardware.Apply | src/local_server.cpp:84 | The levels after one `digitalWrite`, `attach`, `write` or `detach`: exactly the written output, angle or attachment changes. |
| Hardware.Run | src/cloud_mode.cpp:115-119 | The levels after a sequence of writes, performed first to last. |
| Hardware.ApplyWrite | src/local_server.cpp:84 | A digital write sets its own output to the written level and leaves every other output and the servos unchanged. |
| Hardware.RunAppend | src/cloud_mode.cpp:115-119 | Performing two write sequences one after the other is performing their concatenation. |
| Hardware.RunKeeps | src/local_server.cpp:84 | A sequence with no write to an output leaves that output's level unchanged. |
| Hardware.AllOutputsLowEffect | src/cloud_mode.cpp:115-119 | The start-up sequence leaves all four relays and the lock low and does not touch the servos. |
| Hardware.Board.Do | src/local_server.cpp:84 | A write appends itself to the trace and moves the levels by exactly that action. The invariant levels = Run(initial, trace) is kept. |
| Hardware.Board.DriveAllLow | src/test_mode.cpp:252-256 | Appends relay 1..4 low and then lock low to the trace, with the levels following. |
| ArduinoString.TrimIsInnerSlice | src/local_server.cpp:67 | `trim` returns the slice left after removing the leading and trailing whitespace, and nothing else. |
| ArduinoString.Trim | src/local_server.cpp:67 | `String::trim`: leading and trailing whitespace removed. |
| ArduinoString.EndsWith | src/cloud_mode.cpp:79 | `String::endsWith`: the suffix is no longer than the string and equals its tail. |
| ArduinoString.CStr | src/cloud_mode.cpp:81 | What `c_str()` consumers such as `publish` see: the text before the first NUL. |
| ArduinoString.CStrIsPrefix | src/cloud_mode.cpp:81 | The C string is a prefix of the string, contains no NUL, and is followed by a NUL or the end. |
| ArduinoString.Equals | src/cloud_mode.cpp:80 | `String == "literal"` (a `strcmp`): the string starts with the literal, which ends at a NUL or at the end of the string. |
| ArduinoString.EqualsComparesCStr | src/cloud_mode.cpp:80-81 | For a literal without NUL, `==` is true exactly when the C string equals the literal. |
| ArduinoString.EqualsOne | src/local_server.cpp:74-172 | A word equal to one literal is unequal to every other, so the `if`/`else if` chains pick at most one branch. |
| ArduinoString.CStrStopsAtNul | src/cloud_mode.cpp:74-81 | A NUL and everything after it are invisible to the C string. |
| ArduinoString.EqualsStopsAtNul | src/local_server.cpp:195-198 | Whatever follows a NUL in a word changes no comparison with a literal. |
| ArduinoString.ToInt | src/local_server.cpp:113 | `String::toInt`: leading whitespace skipped, an optional sign, then the longest run of digits; 0 when there is none. |
| ArduinoString.LeadingDigits | src/local_server.cpp:113 | The digit run `toInt` reads is the longest all-digit prefix. |
| ArduinoString.DigitsValueOfNatString | src/local_server.cpp:119 | The value of the decimal digits of n is n. |
| ArduinoString.LeadingDigitsOfDigits | src/local_server.cpp:113 | A string of digits is its own leading digit run. |
| ArduinoString.ToIntOfDecimalString | src/local_server.cpp:113-119 | `toInt(String(n)) == n` for every integer n. |
| Ldr.Min | libraries/LDR_10K/src/LDR_10K.cpp:19-28 | The smallest read is one of the reads and is at most every read. |
| Ldr.Max | libraries/LDR_10K/src/LDR_10K.cpp:19-28 | The largest read is one of the reads and is at least every read. |
| Ldr.SumBounds | libraries/LDR_10K/src/LDR_10K.cpp:23-26 | The accumulated sum of reads in [lo, hi] lies in [n*lo, n*hi]. |
| Ldr.MeanOfOne | libraries/LDR_10K/src/LDR_10K.cpp:20-21 | With one read per sample the average is that read. |
| Ldr.MeanBetween | libraries/LDR_10K/src/LDR_10K.cpp:27 | The truncated average lies between the smallest and the largest read. |
| Ldr.MapToUnitInterval | libraries/LDR_10K/src/LDR_10K.cpp:34-40 | The result is in [0, 1]. It is 0 for an empty range and 0 at or below the minimum, 1 at or above the maximum, and (value-min)/(max-min) in between. |
| Ldr.MapToUnitIntervalMonotone | libraries/LDR_10K/src/LDR_10K.cpp:34-40 | For a proper range the mapping never decreases as the reading grows. |
| Ldr.RoundHalfAway | libraries/LDR_10K/src/LDR_10K.cpp:45 | `roundf` rounds to within one half of its argument and keeps non-negative values non-negative. |
| Ldr.RoundMonotone | libraries/LDR_10K/src/LDR_10K.cpp:45 | Rounding never reverses the order of two non-negative values. |
| Ldr.Percentage | libraries/LDR_10K/src/LDR_10K.cpp:42-49 | The percentage is always in [0, 100]. |
| Ldr.PercentageAtMin | libraries/LDR_10K/src/LDR_10K.cpp:42-49 | A reading at or below the calibrated minimum gives 0 %. |
| Ldr.PercentageAtMax | libraries/LDR_10K/src/LDR_10K.cpp:42-49 | A reading at or above the calibrated maximum gives 100 %. |
| Ldr.PercentageMonotone | libraries/LDR_10K/src/LDR_10K.cpp:42-49 | More light never gives a smaller percentage. |
| Ldr.PercentageDegenerate | libraries/LDR_10K/src/LDR_10K.cpp:35 | With min == max the percentage is 0 instead of a division by zero. |
| Ldr.Ordered | libraries/LDR_10K/src/LDR_10K.cpp:51-57 | The stored pair is ordered and is a permutation of the given pair. |
| Ldr.OrderedSymmetric | libraries/LDR_10K/src/LDR_10K.cpp:51-57 | Calibrating with (a, b) or with (b, a) stores the same pair. |
| Ldr.Ldr10K.constructor | libraries/LDR_10K/src/LDR_10K.cpp:7-8 | Stores the pin and the calibration pair as given, unordered, with a smoothing count of 1. The defaults are 300 and 4095 (libraries/LDR_10K/src/LDR_10K.h:7). |
| Ldr.Ldr10K.ReadsPerSample | libraries/LDR_10K/src/LDR_10K.cpp:19-28 | One read when smoothing is at most 1, otherwise the smoothing count; always between 1 and 255. |
| Ldr.Ldr10K.ReadAveraged | libraries/LDR_10K/src/LDR_10K.cpp:19-28 | Returns the truncated mean of the reads. It lies between their minimum and maximum, and is the single read when smoothing is off. |
| Ldr.Ldr10K.GetAnalogLDR | libraries/LDR_10K/src/LDR_10K.cpp:30-32 | The averaged raw reading, within the range of the reads. |
| Ldr.Ldr10K.GetPercentageLDR | libraries/LDR_10K/src/LDR_10K.cpp:42-49 | The percentage of the averaged reading under the current calibration, always in [0, 100]. |
| Ldr.Ldr10K.SetCalibration | libraries/LDR_10K/src/LDR_10K.cpp:51-57 | Stores the pair swapped into order, so that min <= max, and changes nothing else. |
| Ldr.Ldr10K.SetSmoothing | libraries/LDR_10K/src/LDR_10K.cpp:59-62 | A count of 0 is stored as 1 and any other count as given; nothing else changes. |
| Ldr.CalibrationOrderIrrelevant | libraries/LDR_10K/src/LDR_10K.cpp:51-57 | Two sensors calibrated with the same pair in opposite orders report the same percentage for the same read. |
| LocalServer.FieldsSplit | src/local_server.cpp:51-64 | A line splits into its text up to the first separator followed by the fields of the rest. |
| LocalServer.Fields | src/local_server.cpp:51-64 | The fields `getValue` numbers: each separator closes a field, and the last character closes the last one, so a trailing separator stays in it. |
| LocalServer.Parse | src/local_server.cpp:66-71 | The trimmed line's fields 0..3, empty where missing: category, action, target and value. |
| LocalServer.Respond | src/local_server.cpp:73-193 | The dispatcher of `procesarComando`: for each category and action, the pin writes and console lines in order, with every error line for an unknown relay, servo or category. Each word is compared with `String ==`, so up to its first NUL. |
| LocalServer.NulEndsValueWord | src/local_server.cpp:195-198 | `recvMsg` keeps a NUL byte in the command, yet `relay set 1 on` followed by a NUL switches relay 1 on. |
| LocalServer.JoinFields | src/local_server.cpp:51-64 | Joining the fields of a line with the separator gives the line back. |
| LocalServer.NoSeparatorInFields | src/local_server.cpp:51-64 | When the line does not end in the separator, no field contains it. |
| LocalServer.TrailingSeparatorKept | src/local_server.cpp:56-60 | A separator in the last position stays inside the last field, because the last character always closes a field at i + 1. |
| LocalServer.FieldsOfJoin | src/local_server.cpp:51-64 | Non-empty, separator-free words joined with the separator split back into the same words. |
| LocalServer.GetValue | src/local_server.cpp:51-64 | The loop returns field `index` of the line, or "" when the line has no such field. |
| LocalServer.ScanFromFields | src/local_server.cpp:51-64 | The scan, from any point it can reach, returns field `index` of the completed fields followed by the fields of the unread rest. |
| LocalServer.TakeField | src/local_server.cpp:56-60 | The field closed at a separator, or at the last character, moves from the unread rest to the completed fields. |
| LocalServer.ParsedWordsHaveNoSpace | src/local_server.cpp:66-71 | The category, action and target words of a parsed command contain no whitespace. |
| LocalServer.ParseJoinedWords | src/local_server.cpp:66-71 | One to four non-empty words without whitespace, joined by single spaces, parse back into those words, with the missing ones empty. |
| LocalServer.ParseSensorCommand | src/local_server.cpp:150-155 | `sensor dht`, `sensor ldr`, `sensor gps` and `sensor all` parse to category "sensor" with that action. |
| LocalServer.UnknownRelayHasNoEffect | src/local_server.cpp:74-92 | A relay target other than "1".."4" prints the unknown-relay error and writes nothing. |
| LocalServer.RelaySetDrivesOnlyItsRelay | src/local_server.cpp:81-89 | `relay set n v` drives relay n high exactly when v is "on" and no other output changes; `relay get` only reports the current level. |
| LocalServer.LockCommands | src/local_server.cpp:96-107 | `lock open` is a high-then-low pulse that leaves the lock low; `lock set` drives the lock high exactly when the target word is "on". |
| LocalServer.ServoAngleClamped | src/local_server.cpp:111-128 | `servo set` writes exactly one angle, clamped into [0, 180] and equal to the requested value when in range; an unknown servo only prints an error. |
| LocalServer.SensorAllIsThreeQueries | src/local_server.cpp:150-155 | `sensor all` prints exactly what `sensor dht`, `sensor ldr` and `sensor gps` print, in that order, and writes nothing. |
| LocalServer.UnknownCategoryHasNoEffect | src/local_server.cpp:191-193 | An unrecognised category prints one error and changes no output. |
| LocalServer.RelayFiveRejected | src/local_server.cpp:76-92 | The line "relay set 5 on" is rejected with no write. |
| LocalServer.ParseRelaySetFiveOn | src/local_server.cpp:68-71 | "relay set 5 on" splits into its four words. |
| LocalServer.AdvertisedGpsQueryIsSilent | src/local_server.cpp:143-183 | `sensor GPS`, as the help text spells it, matches no sensor action and prints nothing. |
| LocalServer.ParseAdvertisedGps | src/local_server.cpp:68-71 | "sensor GPS" parses to category "sensor" with action "GPS". |
| LocalServer.Server.constructor | src/local_server.cpp:46 | The server starts inactive with an empty console. |
| LocalServer.Server.Start | src/local_server.cpp:206-235 | Without Wi-Fi the start fails and nothing changes. Otherwise the three servos are attached and the server is active. |
| LocalServer.Server.Stop | src/local_server.cpp:237-243 | The server becomes inactive; stopping an inactive server changes nothing. |
| LocalServer.Server.ProcessCommand | src/local_server.cpp:66-194 | The command is trimmed and split into four words. Its writes and console lines are exactly those the dispatcher specification gives for the parsed command and the current levels. |
| LocalServer.Server.RelayCommand | src/local_server.cpp:74-93 | The relay branch performs exactly the writes and prints exactly the lines of the specification. |
| LocalServer.Server.LockCommand | src/local_server.cpp:96-108 | The lock branch performs exactly the writes and prints exactly the lines of the specification. |
| LocalServer.Server.ServoCommand | src/local_server.cpp:111-130 | The servo branch performs exactly the writes and prints exactly the lines of the specification. |
| LocalServer.Server.SensorQuery | src/local_server.cpp:133-149 | A single sensor query prints the specified line and writes nothing. |
| LocalServer.Server.SensorAll | src/local_server.cpp:150-155 | Re-issuing the three sensor commands prints their lines in order. |
| LocalServer.Server.ConsoleCommand | src/local_server.cpp:158-193 | `sys info`, `sys reset`, `help`/`?` and any other category print exactly the messages of the specification (the help text counts as one) and write nothing. |
| CloudMode.Elapsed | src/cloud_mode.cpp:171 | `millis() - since` in 32-bit unsigned arithmetic: the plain difference, or the difference plus 2^32 after a wrap. |
| CloudMode.ElapsedAcrossWrap | src/cloud_mode.cpp:171 | The elapsed time between two clock readings d ms apart is d, even when the counter wrapped in between. |
| CloudMode.RelockTiming | src/cloud_mode.cpp:171-175 | An armed lock is due for relocking exactly when more than 3000 ms have elapsed, across a wrap too. |
| CloudMode.TelemetryTiming | src/cloud_mode.cpp:178-182 | A telemetry cycle is due exactly when more than 5000 ms have passed since the last one, across a wrap too. |
| CloudMode.RelaySetTopicRoutes | src/cloud_mode.cpp:79-94 | The command topic of relay n reaches relay n's branch of the callback. |
| CloudMode.StateTopicsAreNotCommands | src/cloud_mode.cpp:79-105 | No state topic the bridge publishes matches any branch of the callback. |
| CloudMode.LockSetTopicRoutes | src/cloud_mode.cpp:79-95 | The lock's command topic passes all four relay tests and reaches the lock branch. |
| CloudMode.SuffixDiffers | src/cloud_mode.cpp:79 | A topic whose character differs from a suffix at one position does not end with that suffix. |
| CloudMode.NotACommand | src/cloud_mode.cpp:79-105 | A topic not ending in "t" matches no branch. |
| CloudMode.RelayTopicsSpelled | src/cloud_mode.cpp:81-93 | The topics built from the relay number are the literals the callback and reconnect use. |
| CloudMode.RelayMessage | src/cloud_mode.cpp:79-94 | A relay message drives that relay high exactly when the payload's text before its first NUL is "ON", and leaves the other outputs unchanged. It echoes that text to the relay's state topic and does not arm the relock. |
| CloudMode.LockMessage | src/cloud_mode.cpp:95-105 | A lock message drives the lock high exactly when the payload's text before its first NUL is "UNLOCK", publishes UNLOCKED or LOCKED, and arms the relock exactly then. |
| CloudMode.PayloadEndsAtNul | src/cloud_mode.cpp:74-81 | Appending a NUL and anything else to a payload changes nothing the callback does. |
| CloudMode.UnknownTopic | src/cloud_mode.cpp:79-106 | Any other topic has no effect. |
| CloudMode.GpsFieldsAdded | src/cloud_mode.cpp:228-233 | Adding the four GPS fields one by one is adding the GPS part of the point. |
| CloudMode.PairAdded | src/cloud_mode.cpp:224-225 | Adding the two light fields one by one is adding the light part of the point. |
| CloudMode.PointFieldSelection | src/cloud_mode.cpp:217-233 | The database point carries temperature and humidity exactly on a good DHT read, both light fields always, and the four GPS fields exactly with a fix. It carries nothing else, and the light percentage is in [0, 100]. |
| CloudMode.SinksDisagreeOnFailedRead | src/cloud_mode.cpp:197-222 | On a failed DHT read the MQTT document still carries temperature and humidity while the database point omits them. |
| CloudMode.TelemetryShape | src/cloud_mode.cpp:202-237 | A cycle publishes the GPS state only with a fix, before the sensor state, and ends with the database write of the point. |
| CloudMode.PointFields | src/cloud_mode.cpp:217-233 | The database point's fields after a cycle: temperature and humidity on a good DHT read, both light fields, and the four GPS fields with a fix. |
| CloudMode.TelemetryEvents | src/cloud_mode.cpp:188-242 | A telemetry cycle's network events: the GPS state with a fix, the sensor state, then the database write. |
| CloudMode.DescriptorContents | src/cloud_mode.cpp:266-303 | Every descriptor carries name, id and the device block. Lights and the lock carry their command and state topics and payloads. Sensors carry no command topic. GPS reports on the GPS topic. Other sensors report on the sensor topic with a class and unit exactly when defined. |
| CloudMode.Descriptor | src/cloud_mode.cpp:266-307 | The discovery document `sendDiscovery` builds for one device. |
| CloudMode.ActuatorDescriptor | src/cloud_mode.cpp:270-290 | A light's descriptor carries its relay's command and state topics; the lock's carries the lock topics. Any other actuator carries only name, id and the device block. |
| CloudMode.SensorDescriptor | src/cloud_mode.cpp:291-302 | A sensor's descriptor reports on the sensor topic and has no command topic. It has a class exactly when one is given, and a unit exactly when the class has one. |
| CloudMode.AnnouncementEvents | src/cloud_mode.cpp:309-320 | Announcing a list publishes one retained descriptor per entry, in order. |
| CloudMode.SubscribeEvents | src/cloud_mode.cpp:328-332 | Subscribing to a list logs one subscription per topic, in order. |
| CloudMode.SubscriptionEvents | src/cloud_mode.cpp:328-332 | The five subscriptions, topic by topic. |
| CloudMode.SubscriptionsAreCommandTopics | src/cloud_mode.cpp:328-332 | The subscribed topics are exactly the four relay command topics and the lock command topic. |
| CloudMode.LightAnnouncementHandled | src/cloud_mode.cpp:79-94 | A light announced for relay n carries relay n's command topic, and the callback sends that topic to relay n. |
| CloudMode.LockAnnouncementHandled | src/cloud_mode.cpp:95-105 | An announced lock carries the lock's command topic, and the callback sends that topic to the lock branch. |
| CloudMode.AnnouncedCommandsAreHandled | src/cloud_mode.cpp:281-289 | Each announced light or lock advertises as its command topic the one subscribed for it, and the callback routes that topic to the same actuator. |
| CloudMode.AnnouncedSensorsAreReported | src/cloud_mode.cpp:295-297 | Each announced sensor's value template names a key the sensor-state document always carries. |
| CloudMode.ReconnectWithoutSession | src/cloud_mode.cpp:322-339 | While connected, reconnect does nothing. A failed attempt neither subscribes nor announces. |
| CloudMode.ReconnectSucceeded | src/cloud_mode.cpp:322-333 | A successful attempt subscribes to every topic in order before the first announcement, then makes every announcement in order. |
| CloudMode.ReconnectEvents | src/cloud_mode.cpp:322-339 | What `reconnect` logs: nothing while connected; otherwise one attempt, and after a successful one the subscriptions and then the announcements. |
| CloudMode.Bridge.constructor | src/cloud_mode.cpp:58-61 | The bridge starts disconnected, with the lock closed and both timestamps 0. |
| CloudMode.Bridge.Begin | src/cloud_mode.cpp:111-153 | Every relay and the lock are driven low, then the two global tags are added. Afterwards the lock output is low, so the lock invariant holds. |
| CloudMode.Bridge.Callback | src/cloud_mode.cpp:72-106 | The writes, the published events and the relock arming are exactly those of the callback specification. The relock timer is set to the arrival time only on UNLOCK. |
| CloudMode.Route | src/cloud_mode.cpp:79-95 | The suffix tests of `callback`, in their order: relay 1..4 set, then lock set, else nothing. |
| CloudMode.CallbackEffect | src/cloud_mode.cpp:72-105 | What one inbound message does: the topic and payload are read up to their first NUL; a relay message writes that relay and echoes the payload; UNLOCK opens the lock, publishes UNLOCKED and arms the relock; any other lock payload closes it and publishes LOCKED. |
| CloudMode.Bridge.SetRelay | src/cloud_mode.cpp:79-94 | One relay write and one echo of the payload up to its first NUL. |
| CloudMode.Bridge.Relock | src/cloud_mode.cpp:171-175 | When due, the lock is driven low, LOCKED is published and the relock is disarmed; otherwise nothing changes. |
| CloudMode.Bridge.PublishSensors | src/cloud_mode.cpp:188-242 | The point's fields become exactly the field selection, and the log gains exactly the cycle's events. |
| CloudMode.Bridge.PublishState | src/cloud_mode.cpp:197-214 | The GPS state with a fix, then the sensor state. |
| CloudMode.Bridge.FillPoint | src/cloud_mode.cpp:217-233 | The cleared point is refilled with the DHT, light and GPS parts. |
| CloudMode.Bridge.SendDiscovery | src/cloud_mode.cpp:266-307 | One retained publish of the descriptor on `homeassistant/<component>/orion/<id>/config`. |
| CloudMode.Bridge.PublishDiscovery | src/cloud_mode.cpp:309-320 | Logs exactly the nine announcements, in table order. |
| CloudMode.Bridge.PublishNine | src/cloud_mode.cpp:311-319 | Nine sendDiscovery calls, one per table entry, log exactly that table's announcement events in order. |
| CloudMode.Bridge.Announce | src/cloud_mode.cpp:311 | One sendDiscovery call with a table entry's arguments logs that entry's announcement event. |
| CloudMode.AnnouncedNext | src/cloud_mode.cpp:311-319 | Publishing entry k moves its event from the announcements still to come to the log. |
| CloudMode.Bridge.Reconnect | src/cloud_mode.cpp:322-339 | Connected afterwards exactly when it already was or the attempt succeeded. The log gains exactly the reconnect events for the five topics and nine announcements. |
| CloudMode.Bridge.SubscribeAll | src/cloud_mode.cpp:328-332 | Logs exactly the five subscriptions, relays 1 to 4 and then the lock, in that order. |
| CloudMode.Bridge.KeepSession | src/cloud_mode.cpp:165-167 | After a dropped link, reconnect runs. The log gains exactly the reconnect events, none while the link stayed up. |
| CloudMode.Bridge.Tick | src/cloud_mode.cpp:158-183 | A pass performs exactly the session step's events followed by Pass's writes and events, and leaves the globals Pass gives. The lock output is high only while the relock is armed, and after every pass an armed relock is at most 3000 ms old. |
| CloudMode.Bridge.Serve | src/cloud_mode.cpp:167-183 | After the session step, the pass's delivery, relock and telemetry are exactly Pass's, and the lock invariant is kept. |
| CloudMode.Bridge.Deliver | src/cloud_mode.cpp:167 | `client.loop()` delivers the inbound message to the callback only while the session is up. |
| CloudMode.Bridge.Telemetry | src/cloud_mode.cpp:178-182 | A cycle runs, and the timestamp moves to now, exactly when more than 5000 ms have passed. |
| CloudMode.Bridge.LockSafe | src/cloud_mode.cpp:96-104 | The lock output is high only while the relock timer is armed. |
| CloudMode.Delivered | src/cloud_mode.cpp:167 | A pass delivers the inbound message only while the session is up. |
| CloudMode.Pass | src/cloud_mode.cpp:167-183 | One pass after its session step: deliver at most one message, relock a lock open for more than 3000 ms, and run a telemetry cycle when more than 5000 ms have passed. |
| CloudMode.PassKeepsLockSafe | src/cloud_mode.cpp:167-175 | If the lock output was high only while the relock was armed, that still holds after a pass, and an armed relock is then at most 3000 ms old. |
| CloudMode.DeliveredLock | src/cloud_mode.cpp:96-104 | A delivered message raises the lock output only when it arms the relock. |
| CloudMode.QuietPass | src/cloud_mode.cpp:167-183 | A pass with no message, no relock due and no telemetry due writes and logs nothing. |
| CloudMode.RelockActions | src/cloud_mode.cpp:172 | The relock writes the lock low, only when it is due. |
| CloudMode.RelockEvents | src/cloud_mode.cpp:173 | The relock publishes LOCKED, only when it is due. |
| CloudMode.TelemetryLog | src/cloud_mode.cpp:178-182 | A due cycle logs the telemetry events; otherwise nothing. |
| TestMode.Filtered | src/test_mode.cpp:51-56 | The new filter value lies between the old value and the reading, inclusive. |
| TestMode.FilterFixedPoint | src/test_mode.cpp:54 | The filter keeps its value exactly when the reading is 0 to 7 counts above it; in particular reading == value is a fixed point. |
| TestMode.FilterProgress | src/test_mode.cpp:54 | Away from a fixed point the filter moves at least one count toward the reading and never past it. |
| TestMode.SettleFixed | src/test_mode.cpp:54 | At a fixed point repeated filtering does not move. |
| TestMode.SettlesWithin | src/test_mode.cpp:51-56 | Held at one reading, the filter reaches a fixed point within as many passes as its starting distance. |
| TestMode.MenuIndex | src/test_mode.cpp:61-63 | The selected entry is in [0, items). |
| TestMode.MenuIndexMonotone | src/test_mode.cpp:61-63 | A higher filtered value never selects an earlier entry. |
| TestMode.MenuIndexReachesEvery | src/test_mode.cpp:61-63 | Every entry is selected by some 12-bit reading, the first of its step. |
| TestMode.TopOfRangeIsLastItem | src/test_mode.cpp:61-63 | With six entries the top four counts divide to 6 and the clamp maps them to "back". |
| TestMode.RelayPulsesOrder | src/test_mode.cpp:82-93 | The relay test pulses relays 1..4 in order, each high immediately before low. |
| TestMode.RelayPulses | src/test_mode.cpp:82-93 | The relay test's writes for its first n relays: each high, then low. |
| TestMode.RelayPulsesEffect | src/test_mode.cpp:82-93 | After the relay test every relay is low and the lock and servos are unchanged. |
| TestMode.LockPulseEffect | src/test_mode.cpp:108-120 | The lock test opens the lock, then leaves it closed and everything else unchanged. |
| TestMode.SweepOrder | src/test_mode.cpp:214-233 | The servo sweep writes 0, then 90, then 180 degrees to servos 1, 2 and 3 in turn. |
| TestMode.SweepWrites | src/test_mode.cpp:221-233 | The servo test's writes for its first n angles: all three servos per angle, in order. |
| TestMode.SweepEffect | src/test_mode.cpp:221-233 | After the sweep all three servos hold the last angle and nothing else changed. |
| TestMode.AttachAllEffect | src/test_mode.cpp:210-212 | Attaching the three servos marks all three attached and changes nothing else. |
| TestMode.DetachAllEffect | src/test_mode.cpp:236 | Detaching the three servos marks all three detached and changes nothing else. |
| TestMode.ServoStep | src/test_mode.cpp:229-231 | One angle step sets all three servo angles to it. |
| TestMode.ServoTestEffect | src/test_mode.cpp:208-242 | The servo test leaves every servo at 180 degrees and detached, with no relay or lock change. |
| TestMode.Harness.constructor | src/test_mode.cpp:48-52 | Filter 0, last index -1, first run pending, entry 0. |
| TestMode.Harness.Begin | src/test_mode.cpp:248-260 | Every relay and the lock are driven low. |
| TestMode.Harness.ReadPot | src/test_mode.cpp:51-56 | The filter state and the result are the filtered reading. |
| TestMode.Harness.ReadIndex | src/test_mode.cpp:58-70 | Returns -1 or an entry in range. It returns an entry exactly when the selection changed, and that entry is the new last index. |
| TestMode.Harness.RelayTest | src/test_mode.cpp:76-99 | Appends exactly the four relay pulses. |
| TestMode.Harness.LockTest | src/test_mode.cpp:101-125 | Appends exactly lock high, then lock low. |
| TestMode.Harness.ServoTestRun | src/test_mode.cpp:208-242 | Appends exactly attach 1..3, the sweep, then detach 1..3. |
| TestMode.Harness.Sweep | src/test_mode.cpp:221-233 | Appends the writes of all three angles, in order. |
| TestMode.Harness.WriteAll | src/test_mode.cpp:229-231 | One pass of the angle loop writes the angle to servos 1, 2 and 3, in that order, and nothing else. |
| TestMode.Harness.AttachServos | src/test_mode.cpp:210-212 | Appends exactly the attach of servos 1, 2 and 3, in order. |
| TestMode.Harness.DetachServos | src/test_mode.cpp:236 | Appends exactly the detach of servos 1, 2 and 3, in order. |
| TestMode.Harness.Loop | src/test_mode.cpp:281-315 | The entry changes only when the pot selects a new one. A pending confirm is consumed and runs exactly the selected test's writes. "Back" returns to the main menu with a redraw and a fresh first run; every other entry leaves the UI state alone. |
| TestMode.Harness.RunSelected | src/test_mode.cpp:299-311 | Runs exactly the selected test's writes; "Back" returns to the main menu with a redraw and a fresh first run, and every other entry leaves the UI state alone. |
| TestMode.TestActions | src/test_mode.cpp:300-311 | The writes of the confirmed entry: the relay pulses, the lock pulse, the servo test, and none for the DHT, GPS and Back entries. |

## Left out

- I/O transports are left out: Wi-Fi, WebSerial, the MQTT and InfluxDB clients and NTP. They appear only as parameters: connect results, inbound messages and write results.
- JSON serialisation is left out. Documents are modelled as maps.
- The OLED display is left out (`dibujarMenuTest`, all display calls), along with `Serial` logging.
- The blocking `delay` calls are left out; actions are modelled as orderings, not as timing.
  - This covers the 3 s hold of `lock open`, the reconnect back-off and the test animations.
- The busy-waits on the interrupt-set `confirmPressed` in the DHT and GPS tests are left out. The model only clears the flag after them, and the interrupt itself is the environment writing the field.
- The readings of the DHT and GPS tests go only to the display, so they are left out.
- `LDR_10K::begin` is left out: it configures the pin, the ADC resolution and the attenuation.
- GPS NMEA decoding is left out. A fix is an input, and the coordinates are carried as opaque reals.
- `sys info`, `sys reset` and the `ESP.restart` call are modelled only as which lines are printed. The address, RSSI and uptime values are left out.
- The mode switch in main.cpp is not part of this model.
- LocalServer.GetValue: the index is a natural number, because every call site passes 0..3.
- ArduinoString.ToInt: reads an unbounded integer. `toInt` calls `atol`, which saturates at LONG_MIN and LONG_MAX (32 bits on this target). Its only caller clamps the result to [0, 180], so the servo angle is the same either way.
- Ldr.MapToUnitInterval: computed over exact reals, not single-precision `float`. The firmware's float division may round differently.
- Ldr.MapToUnitInterval: does not model the `int` overflow of `value - inMin` and `inMax - inMin`. That needs calibration bounds more than 2^31 apart, while readings are 12-bit.
- Ldr.Ldr10K.GetPercentageLDR: `u * 100.0f` and `roundf` are computed exactly. Where the float result lies within rounding error of a .5 boundary, the firmware's percentage may differ by one count.
- CloudMode.Bridge.Tick: one `now` stands for all `millis()` calls of a pass. At most one inbound message is delivered per `client.loop()`.
- CloudMode.Bridge.Tick: the 3000 ms bound on an armed relock holds at the end of each pass, not at every instant. The relock is checked once per pass, so a slow pass (a failed reconnect's 2 s back-off, an InfluxDB write) keeps the lock high for longer.
- The InfluxDB `addTag` string building is modelled as map updates.

Where the code and the design documentation disagree, the model follows the code:

- An MQTT `LOCK` command drives the lock low, but it does not disarm the relock timer (src/cloud_mode.cpp:101-104). The next due relock writes low again and publishes LOCKED again.
- The local `lock open` is a blocking high-low pulse and arms no timer (src/local_server.cpp:97-102).
- The relock and telemetry conditions are strict: more than 3000 ms and more than 5000 ms (src/cloud_mode.cpp:171, 179).
- `orion/sensors/state` always carries temperature and humidity, even on a failed DHT read (src/cloud_mode.cpp:197-200). Only the database point omits them.
- `orion/gps/state` is published before `orion/sensors/state` (src/cloud_mode.cpp:202-214).
- The LDR constructor stores the calibration pair unordered. Only `setCalibration` swaps it (libraries/LDR_10K/src/LDR_10K.cpp:7-8, 51-57).
- A NUL byte in a console command or an MQTT payload ends every word comparison, because `String ==` is a `strcmp`. It also ends the echoed MQTT payload, because `publish` takes `c_str()` (src/cloud_mode.cpp:74-81, src/local_server.cpp:195-198). The console's `OK: Relay` line prints the whole target word.
- The help text advertises `sensor GPS`, but the action comparison is case-sensitive, so that command does nothing (src/local_server.cpp:143, 183).
