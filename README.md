# MS_RF_Board sensing core in Dafny

A model of the analog-sensing core of the MS_RF_Board firmware, with proofs:

- the five-slot debounce buffer that the current, voltage and battery modules
  each keep: a circular array of samples, a write index that wraps modulo 5,
  and an average that always divides the sum of all five slots by five, so that
  slots never written count as 0 (`debounce.dfy`, module `Debounce`);
- current sensing: two sensors with one buffer row and one write index each,
  the mV-to-ampere conversion, and the application current limit, which is
  clamped to the 0.1 A safety ceiling (`current_sensing.dfy`);
- voltage sensing: one buffer, the mV-to-volt conversion and the periodic run
  (`voltage_sensing.dfy`);
- battery monitoring: one buffer, its zeroing at initialisation, the
  state-of-charge mapping from 9.0 V (0 %) to 12.6 V (100 %) and the critical
  flag (`battery_monitoring.dfy`);
- the command validator that accepts a string starting with `SET_FREQ` or
  `GET_STATUS` (`command_parser.dfy`).

Each sensing module's static globals are the fields of a class `State`: the
buffer is an `array<real>` (an `array2<real>` of 2 x 5 for current sensing),
the write index an `int` (an `array<int>` of two for current sensing) and the
limit a `real`. Every method that changes a buffer is specified by the
value-level window `Debounce.Buffer`: its `Push` overwrites exactly the slot at the write index
and advances the index, its `Average` is the sum of the five slots over five.
The lemmas about `Buffer` carry the properties over to every module: the
average after any run of pushes from an all-zero window, whatever its write
index, is the sum of the last five samples over five (`AverageOfRecent`), five
equal pushes make the average that value (`PushSameFive`), and pushing 1..5
then 6 averages to 3 then 4 (`WarmUpScenario`). In every module a ghost history
of the pushed samples is part of the class invariant, so the debounced getter
is proved to return the mean of the last five samples directly. For battery
monitoring the history restarts at `Init`, which zeroes the slots but leaves
the write index where it was.

Samples are `real`; the ADC reading (calibrated, or raw when calibration is
unavailable) is an `int` millivolt parameter of each update. The C `(int)` cast
in the state of charge is modelled as truncation toward zero (`Truncate`).

Points of the code the model follows as written:

- The code keeps no count of valid samples; the average divides by five from
  the first sample on, as `Average` does, so slots not yet written count as 0.
- The code stores and returns the current limit but never compares a reading
  against it (`current_sensing.c` lines 156-168), so no over-limit check is
  modelled.
- `main.c` calls `current_sensing_run`, which the current sensing module does
  not define; the module's periodic entry point is `current_sensing_process`,
  modelled as `Process`.

## Model

| member | source | states |
|---|---|---|
| Debounce.PushOverwritesOne | MS_RF_Board/src/VoltageSensing/voltage_sensing.c:98-101 | storing a sample overwrites exactly the slot at the write index, leaves the other four slots as they were, and advances the index to (i+1) mod 5, so it stays in 0..4 |
| Debounce.AfterPushes | MS_RF_Board/src/VoltageSensing/voltage_sensing.c:17-18 | after n pushes onto an all-zero window whose write index is s (the static state has s = 0) the window is well formed and its write index is (s + n) mod 5 |
| Debounce.SlotAge | MS_RF_Board/src/VoltageSensing/voltage_sensing.c:98-101 | after any sequence of pushes from an all-zero window, whatever its write index, the slot d places after the write index holds the sample pushed 5-d pushes ago (0 when fewer were pushed), so the slot at the write index holds the sample the next push evicts |
| Debounce.PushAverage | MS_RF_Board/src/VoltageSensing/voltage_sensing.c:85-101 | one push moves the average by one fifth of (new sample minus the sample it evicts) |
| Debounce.PushSameFive | MS_RF_Board/src/CurrentSensing/current_sensing.c:114-136 | from any window, five pushes of the same value V fill all five slots with V and make the average exactly V |
| Debounce.AverageOfRecent | MS_RF_Board/src/VoltageSensing/voltage_sensing.c:85-101 | after any sequence of pushes from an all-zero window, whatever its write index, the average equals the sum of the last five samples (fewer when fewer were pushed, the rest counting as 0) divided by five |
| Debounce.WarmUpScenario | MS_RF_Board/src/VoltageSensing/voltage_sensing.c:85-101 | pushing 1, 2, 3, 4, 5 from zero gives average 3; a further push of 6 evicts the 1 and gives 4 |
| CurrentSensing.RowOf | MS_RF_Board/src/CurrentSensing/current_sensing.c:133 | the sensor value selects row 0 exactly when it is SENSOR_1 (0); every other value, inside the enumeration or not, selects row 1 |
| CurrentSensing.AmpsFromMillivolts | MS_RF_Board/src/CurrentSensing/current_sensing.c:102 | with a 0.015 ohm shunt and gain 20, a reading of 300 mV is one ampere: current times 300 equals the millivolts, and the current is non-negative exactly when the reading is |
| CurrentSensing.ClampLimit | MS_RF_Board/src/CurrentSensing/current_sensing.c:156-159 | the stored limit is never above 0.1 A nor above the request, and is either the request or 0.1 A: the request when it is at or below 0.1, 0.1 otherwise |
| CurrentSensing.ClampIdempotent | MS_RF_Board/src/CurrentSensing/current_sensing.c:157 | clamping a clamped limit changes nothing, and a request at or below 0.1 A is stored unchanged |
| CurrentSensing.State.constructor | MS_RF_Board/src/CurrentSensing/current_sensing.c:28-31 | both rows and both write indices start at zero and the limit starts at the 0.1 A safety constant |
| CurrentSensing.State.GetDebounced | MS_RF_Board/src/CurrentSensing/current_sensing.c:114-122 | returns the sum of the five slots of the selected row divided by five, which is the mean of that sensor's last five samples (zeros for unwritten slots); changes nothing |
| CurrentSensing.State.Update | MS_RF_Board/src/CurrentSensing/current_sensing.c:131-139 | converts the reading and pushes it into the selected row only; the other row, its index and the limit are unchanged |
| CurrentSensing.State.Store | MS_RF_Board/src/CurrentSensing/current_sensing.c:135-136 | writing into row k overwrites the slot at that row's index and advances that index mod 5; the other row and its index stay as they were |
| CurrentSensing.State.Process | MS_RF_Board/src/CurrentSensing/current_sensing.c:146-149 | pushes one reading into the SENSOR_1 row and one into the SENSOR_2 row, once each, and leaves the limit unchanged |
| CurrentSensing.State.SetLimit | MS_RF_Board/src/CurrentSensing/current_sensing.c:156-159 | the limit becomes the clamped request, so the class invariant limit <= 0.1 A is kept |
| CurrentSensing.State.GetLimit | MS_RF_Board/src/CurrentSensing/current_sensing.c:166-168 | returns the stored limit, which is never above 0.1 A; changes nothing |
| VoltageSensing.VoltsFromMillivolts | MS_RF_Board/src/VoltageSensing/voltage_sensing.c:75 | with the 10:1 divider, volts times 100 equals the millivolt reading (mV / 1000 x 10), non-negative exactly when the reading is |
| VoltageSensing.State.constructor | MS_RF_Board/src/VoltageSensing/voltage_sensing.c:17-18 | static storage: all five slots and the write index start at zero |
| VoltageSensing.State.GetDebounced | MS_RF_Board/src/VoltageSensing/voltage_sensing.c:85-91 | returns the sum of the five slots divided by five, which is the mean of the last five samples (zeros for unwritten slots); changes nothing |
| VoltageSensing.State.Update | MS_RF_Board/src/VoltageSensing/voltage_sensing.c:98-103 | converts the reading and pushes it: only the slot at the write index changes and the index advances mod 5 |
| VoltageSensing.State.Run | MS_RF_Board/src/VoltageSensing/voltage_sensing.c:110-114 | exactly one push, then the average of the buffer that already holds the new sample |
| BatteryMonitoring.VoltsFromMillivolts | MS_RF_Board/src/BatteryMonitoring/battery_monitoring.c:99 | pack voltage is mV / 1000 x 2.0 x 3.0: volts times 1000 equals six times the reading, non-negative exactly when the reading is |
| BatteryMonitoring.Truncate | MS_RF_Board/src/BatteryMonitoring/battery_monitoring.c:139 | the C cast drops the fraction: for x >= 0 the result n satisfies n <= x < n+1, for x < 0 it satisfies n-1 < x <= n |
| BatteryMonitoring.StateOfCharge | MS_RF_Board/src/BatteryMonitoring/battery_monitoring.c:133-141 | 100 at or above 12.6 V, 0 at or below 9.0 V, in between the truncation of (v-9.0)/(12.6-9.0) x 100; always in 0..100 |
| BatteryMonitoring.StateOfChargeMonotone | MS_RF_Board/src/BatteryMonitoring/battery_monitoring.c:133-141 | a higher voltage never gives a lower state of charge |
| BatteryMonitoring.StateOfChargeMidpoint | MS_RF_Board/src/BatteryMonitoring/battery_monitoring.c:24-25 | over the reals, 10.8 V, the midpoint of 9.0 V and 12.6 V, gives exactly 50 |
| BatteryMonitoring.State.constructor | MS_RF_Board/src/BatteryMonitoring/battery_monitoring.c:31-33 | static storage: all five slots and the write index start at zero |
| BatteryMonitoring.State.Init | MS_RF_Board/src/BatteryMonitoring/battery_monitoring.c:71-74 | sets every slot to 0.0 and leaves the write index as it was; the sample history restarts empty from that index |
| BatteryMonitoring.State.GetDebouncedVoltage | MS_RF_Board/src/BatteryMonitoring/battery_monitoring.c:109-115 | returns the sum of the five slots divided by five, which is the mean of the last five samples since start-up or the last initialisation (zeros for unwritten slots); changes nothing |
| BatteryMonitoring.State.UpdateDebounceBuffer | MS_RF_Board/src/BatteryMonitoring/battery_monitoring.c:120-123 | writes the sample at the write index, advances the index mod 5, and changes no other slot; the history grows by that sample |
| BatteryMonitoring.State.Run | MS_RF_Board/src/BatteryMonitoring/battery_monitoring.c:148-162 | pushes the new reading before averaging, so the state of charge comes from an average that includes it (the mean of the last five samples); critical holds exactly when that average is at or below 9.0 V, and then the state of charge is 0 |
| CommandParser.StrNCmpIsPrefix | MS_RF_Board/src/CommandParser/command_parser.c:45-48 | strncmp over the keyword's length returns 0 exactly when the keyword is a prefix of the command (a shorter command differs at its terminator) |
| CommandParser.Parse | MS_RF_Board/src/CommandParser/command_parser.c:36-55 | true exactly when the pointer is not null and the string starts with SET_FREQ or with GET_STATUS, whatever follows; null, empty and every other string (including a proper prefix of a keyword) give false; the result depends on the string alone |
| CommandParser.ParseAcceptsArguments | MS_RF_Board/src/CommandParser/command_parser.c:45-50 | either keyword followed by any arguments (such as "SET_FREQ 915") is accepted |
| CommandParser.ParseRejectsTruncated | MS_RF_Board/src/CommandParser/command_parser.c:37-54 | every proper prefix of either keyword, the empty string included, is rejected (such as "SET_FRE") |

## Left out

- ADC hardware: unit creation, channel configuration, calibration-scheme creation and deletion in the init and deinit functions of the three sensing modules are calls into the vendor SDK. The reading they produce, calibrated or raw when calibration is unavailable, is the millivolt parameter of each update.
- A current-sensor value outside the enumeration reads no channel in the source (the raw reading stays 0); the model takes whatever millivolt value the caller passes, and only the choice of buffer row is modelled for such values.
- Floating point: samples, limits and averages are `real`, so single-precision rounding is not modelled. In `float` arithmetic the state of charge at 10.8 V may come out as 49 rather than 50.
- Logging: every log line is left out; the values the run functions log are returned as out-parameters instead.
- Scheduling, task pinning, periodic delays, the watchdog, Bluetooth, non-volatile storage, diagnostics, error handling and system initialisation order are platform plumbing with no logic of their own; they are not part of this model.
- One writer per buffer: the tasks run concurrently on two cores, and the model describes each module's state as used by a single task; concurrency is not modelled.
- `command_parser_init` and `command_parser_deinit` only log.
