# go-eCharger to Victron D-Bus bridge: verified model of the control core

The bridge polls a go-eCharger wallbox over its HTTP/JSON API and publishes the
readings as a Victron `evcharger` service on D-Bus. It also turns writes that
other processes make to the published paths into device parameter writes. This
project models in Dafny the four pieces of decision logic in
`DbusGoeChargerService` and proves properties about them:

- **Constructor validation** (`Service.CheckConfig`, `GoeChargerService.Create`).
  A pause between requests of 20 or less is refused first. A hardware version
  below 3 is refused next.
- **The write acceptance test of `_set_goe_charger_value`** (`DeviceClient`).
  A write counts as accepted when the device's echo, passed through Python's
  `str()`, reads `"true"` or `"True"`, or when the echo is exactly the string
  `str(value)`. Python's `str()` of an integer is modelled in `PyText`, with a
  parser as its inverse.
- **The write-back table of `_handlechangedvalue`** (`ModeController.HandleWrite`,
  `GoeChargerService.HandleChangedValue`). One external write becomes zero,
  one or two `amp`/`frc`/`lmo` writes plus the callback's result (True, False,
  None, or a raised exception).
- **One poll cycle, `_update`** (`SyncEngine.Cycle`, `GoeChargerService.Update`).
  It covers the automatic-mode bump of `amp`, the telemetry paths, the
  charging-time accumulator, the `car`-to-`/Status` table, the `/UpdateIndex`
  counter that wraps from 255 to 0, and `_last_update`. `SyncEngine.Run`
  iterates the cycle, and lemmas about runs show:
  - values stay frozen while the charger cannot be read;
  - outside automatic mode, the index counts polls modulo 256;
  - outside automatic mode, a charging session adds up the elapsed time;
  - charging time never goes negative when the clock is monotone.

The device is an oracle. `Device` maps each requested write to the HTTP reply
the charger gives. Each status read is a `Poll` value: it raised, it returned
None, or it returned a snapshot. The clock is a parameter `now`. The class
`GoeChargerService` keeps the published values and the session fields, plus a
log `writes` of every `amp`, `frc` and `lmo` write it sent. Its methods change these fields
step by step. Their postconditions tie the new state to the pure transitions
`SyncEngine.Cycle` and `ModeController.HandleWrite`.

Three consequences of the code as written that the model keeps:

- The first code-2 poll of a session already adds the time since the
  preceding poll (lines 247-249), because that poll stamped `_last_update`
  (line 281). So polls with `car` codes 1, 2, 2, 2, 1 at 10 s spacing publish
  `/ChargingTime` 0, 10, 20, 30, 0 (`SyncEngine.ChargingTimeScenario`).
- The automatic-mode step (lines 201-208) runs before the `data is not None`
  test at line 213. So it also runs when the status read returned None, and
  it compares the previously published `/SetCurrent` and `/MaxCurrent`. It
  does not run when the status read raised.
- The third comparison at line 145 is on the raw echo, not on its `str()`.
  So a numeric echo such as `16` for `amp=16` is rejected
  (`DeviceClient.NumericEchoIsRejected`). The string `"True"` is accepted as
  well as `"true"`.

## Model

| member | source | states |
|---|---|---|
| `PyText.Digits` | dbus-goecharger.py:145 | the rendering of a natural number is non-empty, all decimal digits, with no leading zero |
| `PyText.DecimalString` | dbus-goecharger.py:145 | `str(value)` starts with '-' exactly for negative values and is all digits otherwise |
| `PyText.DecimalRoundTrip` | dbus-goecharger.py:145 | reading back `str(n)` gives `n` |
| `PyText.DecimalStringInjective` | dbus-goecharger.py:145 | two integers render alike only if they are equal |
| `PyText.DecimalStringIsNotBoolean` | dbus-goecharger.py:145 | no integer renders as "true", "True", "false" or "False" |
| `DeviceClient.Str` | dbus-goecharger.py:145 | Python's `str()` of the decoded echo gives "True" exactly for a boolean true or the text "True", and "true" exactly for the text "true"; no number, null or false passes those two comparisons |
| `DeviceClient.Confirms` | dbus-goecharger.py:145-149 | the acceptance test holds exactly for a boolean true, the strings "true" and "True", and the string `str(value)`; a numeric, null or false echo never confirms |
| `DeviceClient.TextEchoConfirmsOneValue` | dbus-goecharger.py:145 | a text echo other than "true"/"True" confirms at most one value |
| `DeviceClient.Outcome` | dbus-goecharger.py:127-149 | a write raises exactly when there is no response, no JSON, or no echo under the parameter's key; it is accepted exactly when that echo confirms the value |
| `DeviceClient.NumericEchoIsRejected` | dbus-goecharger.py:145 | a device echoing the written number as a JSON number is reported as not set |
| `DeviceClient.AcknowledgementIsAccepted` | dbus-goecharger.py:145 | a device answering `{"<param>": true}` is reported as set, whatever the value |
| `ModeController.ResultOf` | dbus-goecharger.py:298-313 | a write's outcome is passed back as the callback result: truthy exactly when accepted, an exception exactly when the write raised |
| `ModeController.LoadingMode` | dbus-goecharger.py:325-342 | modes 0, 1, 2 map to `lmo` 3, 4, 5 |
| `ModeController.ForceOnModeSwitch` | dbus-goecharger.py:326-338 | the `frc` of a mode switch is 1 except when switching to mode 0 or 1 while `/StartStop` is 1 |
| `ModeController.ForceOnModeSwitchTable` | dbus-goecharger.py:326-338 | `frc` is 2 for mode 0 and 0 for mode 1 when `/StartStop` is 1; otherwise it is 1 |
| `ModeController.HandleWrite` | dbus-goecharger.py:291-353 | at most two writes are sent; a truthy result means at least one write was sent and the device accepted every one; an exception comes only from a write |
| `ModeController.SetCurrentIsClamped` | dbus-goecharger.py:295-299 | a `/SetCurrent` write sends exactly one `amp = min(value, /MaxCurrent)` and returns that write's outcome |
| `ModeController.StartStopInManualMode` | dbus-goecharger.py:304-306 | in mode 0 a `/StartStop` write sends exactly `frc = value + 1` and returns that write's outcome: True if accepted, False if rejected, raising if the write raises |
| `ModeController.StartStopInAutomaticMode` | dbus-goecharger.py:308-313 | in mode 1 the value 1 sends `frc = 0` and 0 sends `frc = 1`, and the callback returns that write's outcome; any other value sends nothing and returns None, which is falsy |
| `ModeController.StartStopInOtherModes` | dbus-goecharger.py:314-315 | in any other mode a `/StartStop` write returns False and sends nothing |
| `ModeController.MaxCurrentIsRefused` | dbus-goecharger.py:317-319 | a `/MaxCurrent` write returns False and sends nothing |
| `ModeController.UnmappedPathsAreRefused` | dbus-goecharger.py:351-353 | a write to any other published path returns False and sends nothing |
| `ModeController.ModeSwitch` | dbus-goecharger.py:321-350 | for a mode 0..2, `lmo = mode + 3` is written first, and `frc` is written iff `lmo` was accepted; the result is true iff both were accepted, False when `lmo` is rejected, an exception when either write raises, and otherwise the `frc` write's outcome; any other mode returns False before any write |
| `ModeController.ModeSwitchCanHalfApply` | dbus-goecharger.py:347-350 | a device that accepts `lmo` and then fails on `frc` has taken the new loading mode while the callback reports failure |
| `SyncEngine.Initial` | dbus-goecharger.py:77-89 | after construction the index, the charging time and the last-update time are 0 |
| `SyncEngine.Trunc` | dbus-goecharger.py:236-239 | `int()` of a reading truncates toward zero: the result is within 1 of the reading, on the same side of zero |
| `SyncEngine.Max3` | dbus-goecharger.py:240 | `/Current` is one of the three phase currents and no smaller than any of them |
| `SyncEngine.StatusOf` | dbus-goecharger.py:258-267 | `/Status` is one of 0, 2, 3, 6; it is 2 exactly for `car` 2; it is 0 exactly for codes other than 2, 3, 4 |
| `SyncEngine.StatusTable` | dbus-goecharger.py:258-267 | `car` 1, 2, 3, 4 give `/Status` 0, 2, 6, 3, and any other code gives 0 |
| `SyncEngine.AccumulateChargingTime` | dbus-goecharger.py:247-251 | `car` 1 resets the time to 0; with a clock that does not go back the time never decreases otherwise and stays non-negative |
| `SyncEngine.ChargingTimeTable` | dbus-goecharger.py:247-251 | `car` 2 after an earlier poll adds `now - last_update`; `car` 2 before any poll and codes other than 1 and 2 leave it unchanged; `car` 1 resets it |
| `SyncEngine.ChargingTimeMovesOnlyWhileCharging` | dbus-goecharger.py:247-267 | apart from a reset, the charging time changes only in a cycle that publishes `/Status` 2 |
| `SyncEngine.NextIndex` | dbus-goecharger.py:275-278 | the next `/UpdateIndex` never exceeds 255 and is `(index + 1) mod 256` for an index in 0..255 |
| `SyncEngine.CycleSendsBumpExactly` | dbus-goecharger.py:199-208 | a cycle sends `amp = /MaxCurrent` exactly when the status read did not raise, `/Mode` is 1, the surplus push did not raise and the published `/SetCurrent` is below `/MaxCurrent` |
| `SyncEngine.CycleOnlyRaisesCurrent` | dbus-goecharger.py:193-289 | a cycle sends at most one write, and only `amp = /MaxCurrent` in automatic mode when that is above the published `/SetCurrent` |
| `SyncEngine.Publish` | dbus-goecharger.py:213-281 | publishing keeps `/Mode` and `/StartStop`, stamps `last_update = now`, and publishes a `/Current` no smaller than any phase current |
| `SyncEngine.Cycle` | dbus-goecharger.py:193-289 | a cycle publishes only when the read returned data and, in automatic mode, neither the surplus push nor the bump raised; the only write it sends is `amp = /MaxCurrent`, in automatic mode when `/SetCurrent < /MaxCurrent` (the helper `BumpsCurrent`); `/Mode` and `/StartStop` never change |
| `SyncEngine.CycleKeepsIndexInRange` | dbus-goecharger.py:274-278 | `/UpdateIndex` stays within 0..255 |
| `SyncEngine.NoDataChangesNothing` | dbus-goecharger.py:201-213 | a read that returned None or raised leaves every published value, the charging time and `last_update` unchanged; with None, automatic mode still sends the `amp` bump |
| `SyncEngine.FrozenWhileUnavailable` | dbus-goecharger.py:213-283 | any run of polls without data leaves the whole state unchanged |
| `SyncEngine.IndexCountsPolls` | dbus-goecharger.py:274-278 | outside automatic mode, n polls with data advance `/UpdateIndex` by n modulo 256 |
| `SyncEngine.ChargingTimeStaysNonNegative` | dbus-goecharger.py:246-252 | with a clock that never goes back, the charging time and `/ChargingTime` stay non-negative over any run |
| `SyncEngine.ChargingSessionAccumulates` | dbus-goecharger.py:246-252 | outside automatic mode, a run of charging polls after an earlier poll adds exactly the time from the previous poll to the last one |
| `SyncEngine.ChargingTimeScenario` | dbus-goecharger.py:246-281 | outside automatic mode, polls with codes 1, 2, 2, 2, 1 at 10 s spacing publish `/ChargingTime` 0, 10, 20, 30, 0 |
| `Service.CheckConfig` | dbus-goecharger.py:41-45 | the configuration is accepted iff the pause exceeds 20 and the hardware version is at least 3; a short pause is the error reported first |
| `Service.GoeChargerService.constructor` | dbus-goecharger.py:41-89 | a service built from a valid configuration keeps that configuration, starts in `Initial()` (index, charging time and last-update time 0) with an empty write log |
| `Service.GoeChargerService.Create` | dbus-goecharger.py:28-89 | construction is refused with the `CheckConfig` error, or yields a fresh service in the initial state with an empty write log |
| `Service.GoeChargerService.SetValue` | dbus-goecharger.py:122-149 | exactly one write is appended to the log and its outcome is `Outcome` of the device's reply |
| `Service.GoeChargerService.HandleChangedValue` | dbus-goecharger.py:291-353 | the writes appended and the result are those of `HandleWrite` for the published `/Mode`, `/StartStop` and `/MaxCurrent` |
| `Service.GoeChargerService.Update` | dbus-goecharger.py:193-289 | the new state is `Cycle` of the old one; the writes appended are the cycle's; `/UpdateIndex` stays in 0..255 |
| `Service.GoeChargerService.PublishSnapshot` | dbus-goecharger.py:213-281 | the state becomes `Publish` of the old state and the snapshot; no write is sent |
| `Service.GoeChargerService.PublishTelemetry` | dbus-goecharger.py:236-267 | the phase powers, total power, current, set and maximum current and status are set from the snapshot; nothing else changes |
| `Service.GoeChargerService.AdvanceSession` | dbus-goecharger.py:246-281 | the charging time becomes `AccumulateChargingTime` of the old one, `/ChargingTime` its truncation, the index advances, and `last_update` becomes `now` |

## Left out

- HTTP requests, timeouts and JSON decoding of the status read (lines 100-120) are not modelled. They are foreign I/O. A `Poll` says only whether the read raised, returned None, or returned a snapshot with a 16-entry `nrg` vector.
- A status read whose data lacks a key or holds a non-numeric reading raises partway through publishing (lines 236-267). It can then leave some paths updated. The model assumes a well-formed snapshot.
- The surplus push `_set_goe_charger_automatic_mode_values` (lines 151-184) is not modelled. It reads other D-Bus services and sends float sums. Only whether it raises is modelled, because a raise ends the cycle.
- `/Ac/Energy/Forward` (line 241) is not modelled: it rounds a binary float to two decimals. `/Ac/Voltage` and `/MCU/Temperature` are never written after construction.
- The two `time.time()` reads of one cycle (lines 247 and 281) are modelled as a single clock value `now`.
- A device echo that is a float, an array or an object is not modelled. `Json` covers null, booleans, integers and strings.
- The property bus stores an externally written value only when the callback's result is truthy. `VeDbusService` is not part of this model, so `/Mode` and `/StartStop` are plain fields of the class. No method stores an accepted external write, so a `GoeChargerService` built by `Create` keeps `/Mode` and `/StartStop` at 0; the automatic-mode branch of `Update` and the `/StartStop` and `/Mode` tables for other values are reached only through the pure `SyncEngine.Cycle` and `ModeController.HandleWrite` and their lemmas.
- D-Bus path registration, the display-format lambdas, the sign-of-life timer, logging, the GLib timers, `main()` and multi-host start-up (lines 47-99, 186-191, 356-408) are not modelled. They are plumbing or observation only.
- The configuration values other than the pause and the hardware version are not modelled: device instance, position, host, access type and log settings. They do not take part in the decision logic.
- Python floats are modelled as exact `real`s: the clock `time.time()`, `_charging_time` and `_last_update` (lines 89, 247-249, 281) and the `nrg` readings. The sums of `SyncEngine.ChargingSessionAccumulates` and the `int()` of the accumulated time (line 252) therefore ignore binary rounding.
- The parameter write `requests.get(url = url)` (line 127) has no timeout, so a device that never answers blocks the callback or the cycle, and with it the whole main loop. `DeviceClient.Outcome` knows only a reply or its absence, so the model does not capture that hang.
