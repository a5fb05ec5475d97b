# Home heating site: verification model

A Dafny model of the parts of the home heating site that decide something: the boiler controller's firmware, the
gateway's command dispatcher, the backend's alarm tracker and settings rules, and the arithmetic they share. It follows
the code branch by branch, constants included; temperatures and pressures are reals, missing readings are options and
time is counted in whole milliseconds (seconds as reals in the Python services).

`dafny verify dfyconfig.toml` checks the whole project.

## How the files fit together

- `Relays.dfy`: the relay outputs with their batch, and what the pins carry after each single write.
- `Well.dfy`, `Autofill.dfy`, `Valves.dfy`, `Legionella.dfy`, `AlarmLamps.dfy`, `Heating.dfy`, `HeatingRuns.dfy`: the parts of
  the controller, each as a step function with the properties of all its runs. `Ticks.dfy`: how late the fast tick is.
- `Controller.dfy`: the whole controller as a state machine: one update cycle in the order of the code, the fast tick,
  settings, readings, commands and reboots.
- `ControllerRuns.dfy`: every run of the controller is a run of each part. `ControllerSafety.dfy`,
  `ControllerPromises.dfy` and `ControllerDuties.dfy`: what that guarantees at the outputs: which never come on together,
  what never happens, and exactly when each of them is on.
- `BoilerLogic.dfy`: the controller as a class over `Relays.RelayController` and `WeatherCurve.PZAController`, its methods
  in the form of the firmware, each proved equal to its step of the state machine down to the pin writes.
- `SettingTable.dfy`: the controller's table of settings, their storage, and what a restart brings back. `SettingTexts.dfy`:
  what each text means, and settings on their way through texts, storage and restarts.
- `WeatherCurve.dfy`, `Schedule.dfy`: weather curves with their low-pass filter; day lists, windows and value formats.
- `SettingRules.dfy`: the backend's validation of settings, and what it gives the controller.
- `Dispatcher.dfy`, `DispatcherRuns.dfy`: the command dispatcher and its runs under arbitrary interleaving.
- `Convergence.dfy`, `StaleWrites.dfy`: the dispatcher with its channels and a validating device: when the last value wins,
  and that it need not otherwise.
- `Resync.dfy`: routing settings to devices, and queueing a device's settings again.
- `AlarmTracking.dfy`, `AlarmRules.dfy`, `AlarmRuns.dfy`: the alarm tracker, the rules, and both in a loop.
- `Geometry.dfy`: clipping a segment to a box. `Options.dfy`, `Reals.dfy`: values that may be missing; maximum
  and minimum.

Each class method is proved against a function of the old state; the properties are proved about that function and about
all its runs. A run is a sequence of inputs or events with the sequence of states before and after them.

## Where the code falls short of a promise

- The three-way valves: both outputs of a valve are energised for a moment if the tick is late. 15 s is the exact bound:
  no run of the controller clashes if and only if the tick comes at least every 15 s
  (`ControllerSafety.NeverClashesIffTimely`; `LaterTicksClash` is a run with 15.001 s). The main loop ticks in the same pass
  just before each update (firmware/esp32-homesite/src/main.cpp:519-553), so such a run needs a reading of the sensors that
  takes more than 15 s; the watchdog allows 30 s (line 484).
- The dispatcher: an older value of a setting can win, acknowledged and with nothing pending or unsynced. The exact steps
  that make this possible for a setting are (`Convergence.Overtakes`): a flush takes it while another flush still holds a
  different value of it; a flush publishes its last waiting value while a timeout check has still to publish a retry of a
  different one; or a timeout check decides to retry a value while a different one, behind which nothing waits, is
  published but not recorded. Without such a step the last value always wins (`Convergence.Converges`); after any such
  step, without new values and without another such step, everything can come to rest with the older value
  (`StaleWrites.RevertsIffOvertakes`). `OverlappingFlushesRevert`, `StaleRetryReverts`, `LateRecordReverts` and
  `UnrecordedPublishReverts` are complete runs; only the first and the third need overlapping flushes.
- The controller's integers are checked as floating-point texts but take effect by their leading digits: a disinfection
  duration "1e2" passes as 100 and takes effect as 1 minute, a heater delay "-1e-99" passes as -0 and takes effect as -1,
  which as an unsigned product is 49 days (`SettingTable.IntegersMisread`). The settings in effect are within all limits if
  and only if the leading digits of these two are (`SettingTable.LoadedWithinLimits` at a boot, `LiveWithinLimits` ever
  after); plain digits are never misread (`PlainIntegersFit`). Everything proved about runs of the controller includes
  the settings so misread.
- "ok" does not always mean that a value survives a restart: a day list cleared while the memory refuses the write is
  answered "ok" and comes back (`SettingTable.ClearedDaysReturn`). `SettingTable.OkSurvives` says exactly when: an "ok"
  value is lost at the next restart if and only if it is the empty text, the memory refused it, and a restart would take
  another value.

## Model

| member | source | states |
|---|---|---|
| `ControllerSafety.ValvesNeverClash` | firmware/esp32-homesite/src/boiler_logic.cpp:715-741 | with the tick at least every 15 s, no motorised valve has both outputs energised in any reachable state or after any single pin write, half-way through a commit included |
| `ControllerSafety.AutofillNeverClashes` | firmware/esp32-homesite/src/boiler_logic.cpp:656-730 | for the filling valve the same holds whatever the tick does |
| `ControllerSafety.ClashIffReversed` | firmware/esp32-homesite/src/relay_controller.cpp:23-34 | one update energises both outputs of a valve in passing if and only if it turns that valve from closing straight to opening |
| `ControllerSafety.NeverClashesIffTimely` | firmware/esp32-homesite/src/boiler_logic.cpp:715-741 | for every gap: no run with the tick at least that often ever has both outputs of a motorised valve energised after a pin write, if and only if the gap is at most 15 s |
| `ControllerSafety.LaterTicksClash` | firmware/esp32-homesite/src/boiler_logic.cpp:853-894 | a run of the whole controller with one tick 1 ms later, one commit of which drives the radiator valve both ways |
| `ControllerSafety.WritesLeadToOutputs` | firmware/esp32-homesite/src/relay_controller.cpp:18-34 | after every event but a boot each pin carries its recorded state |
| `ControllerSafety.UpdateWritesOnce` | firmware/esp32-homesite/src/relay_controller.cpp:23-28 | an update writes each pin at most once |
| `ControllerSafety.TickLeadsToOutputs` | firmware/esp32-homesite/src/boiler_logic.cpp:715-741 | the direct writes of a tick end in exactly the relay states the tick decided |
| `ControllerPromises.LastWord` | firmware/esp32-homesite/src/boiler_logic.cpp:495-525 | after every update, whatever came before: too hot means boiler off; frost with pressure means both pumps on (the floor only with its sensor) and the boiler on unless too hot; manual off without frost means off; a lost floor sensor stops the floor pump |
| `ControllerPromises.FrostIffFroze` | firmware/esp32-homesite/src/boiler_logic.cpp:331-351 | frost protection is on iff some cycle read a temperature below 7 and no later cycle or reboot found all of them at 15 or above |
| `ControllerPromises.NoShortCycles` | firmware/esp32-homesite/src/boiler_logic.cpp:529-539 | over a stretch of auto cycles with a reading below the maximum and no frost forcing, any two switches of the boiler relay are 5 minutes apart in real time, also over a wrap of the millisecond counter |
| `ControllerPromises.RegulateWaits` | firmware/esp32-homesite/src/boiler_logic.cpp:588-610 | a switch comes 5 minutes after the last one although that one is noticed only a cycle later and the held time is taken modulo 2^32 |
| `ControllerPromises.TargetBounds` | firmware/esp32-homesite/src/boiler_logic.cpp:556-587 | for coherent settings the auto target is at most max - 7 and the stop threshold at most max - 5; at least the minimum when something wants heat; at least the disinfection temperature while that loads the tank |
| `ControllerPromises.UpdateUsesTarget` | firmware/esp32-homesite/src/boiler_logic.cpp:548-610 | an auto update stores that target, stops the burner only at target + 2 and starts it only below the target |
| `ControllerPromises.AutofillOpenBounded` | firmware/esp32-homesite/src/boiler_logic.cpp:684-730 | in any run, reboots included, from the event that opens the relay to the event that closes it pass at most 120 s and a tick gap, whatever the pressure reads |
| `ControllerPromises.LockoutHolds` | firmware/esp32-homesite/src/boiler_logic.cpp:512-515 | after a trip the open relay stays off over any events and reboots until the fault is reset or the configuration wiped |
| `ControllerPromises.WellStopped` | firmware/esp32-homesite/src/boiler_logic.cpp:402-448 | with the water sensor configured at boot or not, the dry flag holds iff waiting or locked, and then the pump relay is off, in every state |
| `ControllerPromises.WellPauses` | firmware/esp32-homesite/src/boiler_logic.cpp:438-441 | a pump stopped for a pause runs again only 30 minutes later, if left alone |
| `ControllerPromises.WellLocked` | firmware/esp32-homesite/src/boiler_logic.cpp:416-419 | once locked the pump relay stays off until off/on, reset or reboot |
| `ControllerPromises.WellDryTimeBounded` | firmware/esp32-homesite/src/boiler_logic.cpp:425-443 | on a dry well the pump relay is on at most 3 x (60 s + update gap) in all before the lock |
| `ControllerPromises.HeaterWaits` | firmware/esp32-homesite/src/boiler_logic.cpp:755-777 | from an idle heater on, in auto mode its relay is on only after updates over the whole delay, as its unsigned product gives it, in which the tank wanted heat and the boiler gave none |
| `ControllerPromises.HeaterNeverBlind` | firmware/esp32-homesite/src/boiler_logic.cpp:748-753 | in any mode the heater relay is on only if the last update read a tank below its target |
| `ControllerPromises.TankPumpIffCalled` | firmware/esp32-homesite/src/boiler_logic.cpp:619-638 | the tank pump relay is on iff some update called for it (cold tank, or by hand) and none since found it 2 above the target, unread or switched off, nor a reboot came |
| `ControllerPromises.TankFirst` | firmware/esp32-homesite/src/boiler_logic.cpp:640-652 | after the interlocks, without forcing, a circuit that gives way never runs beside a tank pump that heats, else as commanded, the floor only with its sensor |
| `ControllerPromises.NoHeatOnlyIfStalled` | firmware/esp32-homesite/src/boiler_logic.cpp:363-398 | no heat is reported in a run only after half an hour on, a stalled window of 15 minutes, and far below the target since |
| `ControllerPromises.LampIffUnmuted` | firmware/esp32-homesite/src/boiler_logic.cpp:987-998 | in every reachable state the critical lamp is on iff some active cause was not muted by the last mute or was found gone for 5 minutes since |
| `ControllerPromises.DisinfectionVerdict` | firmware/esp32-homesite/src/boiler_logic.cpp:786-843 | a disinfection window ends passed iff two hot readings 10 minutes apart had no cold one between them, else failed |
| `ControllerDuties.BoilerRuns` | firmware/esp32-homesite/src/boiler_logic.cpp:495-615 | the boiler relay after any update, exactly: off at or above the maximum; on while frost forces it; as commanded by hand; with a lost sensor on in cold or unknown weather, off in mild weather without frost, and unchanged after fewer than three misses; in auto mode on below the target and off from 2 degrees above it on, and unchanged between, each 5 minutes after the last noticed switch by the wrapping counter; and what is remembered of that switch |
| `ControllerDuties.BoilerFollowsRun` | firmware/esp32-homesite/src/boiler_logic.cpp:529-615 | the same from nothing but the run: that switch is the last one by an update since boot, and its time that of the next update |
| `ControllerDuties.TargetIsHighest` | firmware/esp32-homesite/src/boiler_logic.cpp:556-587 | the auto target is the highest of what the active circuits and the loading tank ask for, raised to the minimum, or the manual setpoint if nothing asks, and at most max - 7 |
| `ControllerDuties.WellRunsIff` | firmware/esp32-homesite/src/boiler_logic.cpp:402-448 | with the water sensor configured at boot or not: after every update the pump relay is on iff it is commanded and neither waiting nor locked; it waits or is locked iff it was locked, the pause is less than 30 minutes old, or the pressure is low and the pump has run on a low pressure for a minute; and it is locked iff it was, or this is the third stop without a delivery between |
| `ControllerDuties.HeaterRunsIff` | firmware/esp32-homesite/src/boiler_logic.cpp:745-782 | the heater relay after any update in any mode, exactly: a tank read below its target, and by hand the command, in auto mode a tank that wants heat in vain and a heater already on or a delay that is over since the update it began with |
| `ControllerDuties.FillingOpensIff` | firmware/esp32-homesite/src/boiler_logic.cpp:673-711 | an update opens the filling valve iff it is idle, enabled and not locked out with a pressure between 0.05 bar and the minimum; keeps it open iff nothing is read, or enabled, for at most 120 s, below the minimum + 0.1 bar; starts the closing with any end of the opening, and locks out iff the 120 s are over |
| `ControllerDuties.ValvesMoveIff` | firmware/esp32-homesite/src/boiler_logic.cpp:847-922 | an update drives each mixing valve open iff it is more than a degree too cold, closed iff too hot, and only when its pump has run for 30 s, no pulse is driven and the last adjustment is 30 s old; else a running pulse goes on |
| `ControllerDuties.DisinfectsUntilHeld` | firmware/esp32-homesite/src/boiler_logic.cpp:804-843 | from the update that opens a disinfection window on, the tank's target is raised until the hold condition is met by its readings, and not raised after it |
| `ControllerDuties.RecirculatesIff` | firmware/esp32-homesite/src/boiler_logic.cpp:480-487 | the recirculation pump is on iff commanded and, with its schedule on and the time known, the minute is in one of its windows, midnight included |
| `ControllerDuties.NightIff` | firmware/esp32-homesite/src/boiler_logic.cpp:275-280 | a circuit's night is on iff enabled on a listed day at a minute of its window, midnight included |
| `ControllerDuties.LostIffMissed` | firmware/esp32-homesite/src/boiler_logic.cpp:281-303 | each of the three sensors is lost iff the last three updates since boot missed it, although the counter stops at 255 |
| `ControllerDuties.CriticalIff` | firmware/esp32-homesite/src/boiler_logic.cpp:926-982 | each of the nine critical causes is active after an update exactly on its condition, with the pressure's hysteresis |
| `ControllerDuties.WarningIff` | firmware/esp32-homesite/src/boiler_logic.cpp:926-998 | the warning lamp is on after an update exactly on the conditions for it |
| `ControllerDuties.WeatherIsHistory` | firmware/esp32-homesite/src/boiler_logic.cpp:196-250 | in every state the weather controller is configured as set, its filter is that of the outdoor readings since boot, and its indoor temperature the last one received |
| `ControllerRuns.CycleParts` | firmware/esp32-homesite/src/boiler_logic.cpp:272-327 | one update moves every part as its own step does, in the order of the cycle |
| `ControllerRuns.NightParts` | firmware/esp32-homesite/src/boiler_logic.cpp:275-311 | the same for what a cycle senses besides: both nights, the tank's sensor, and that the tank heats iff it reads below its target |
| `ControllerRuns.WellRun` | firmware/esp32-homesite/src/boiler_logic.cpp:402-448 | every run of the controller is, for the well pump, a run of its protection |
| `ControllerRuns.FillRun` | firmware/esp32-homesite/src/boiler_logic.cpp:656-730 | the same for the filling valve |
| `ControllerRuns.ValveRuns` | firmware/esp32-homesite/src/boiler_logic.cpp:847-922 | the same for both three-way valves |
| `ControllerRuns.AlmRun` | firmware/esp32-homesite/src/boiler_logic.cpp:786-843 | the same for the disinfection |
| `ControllerRuns.LampsRun` | firmware/esp32-homesite/src/boiler_logic.cpp:926-998 | the same for the alarm lamps |
| `ControllerRuns.TehRun` | firmware/esp32-homesite/src/boiler_logic.cpp:745-782 | the same for the electric heater |
| `ControllerRuns.NoHeatRun` | firmware/esp32-homesite/src/boiler_logic.cpp:363-398 | the same for the no-heat detection |
| `ControllerRuns.PumpRun` | firmware/esp32-homesite/src/boiler_logic.cpp:619-638 | the same for the tank pump |
| `ControllerRuns.FrostRun` | firmware/esp32-homesite/src/boiler_logic.cpp:331-351 | the same for frost protection |
| `BoilerLogic.BoilerLogic.Begin` | firmware/esp32-homesite/src/boiler_logic.cpp:137-149 | boot takes over the loaded settings, misread integers included, and the stored lockout, all else at its initial value |
| `BoilerLogic.BoilerLogic.Update` | firmware/esp32-homesite/src/boiler_logic.cpp:272-327 | the cycle on the fields and relays is the cycle of the model, and the pins change exactly as one commit writes them |
| `BoilerLogic.BoilerLogic.Tick` | firmware/esp32-homesite/src/boiler_logic.cpp:715-730 | the tick on the fields is the tick of the model, write by write |
| `BoilerLogic.BoilerLogic.SenseStage` | firmware/esp32-homesite/src/boiler_logic.cpp:275-304 | schedules, lost sensors, zero pressure and frost |
| `BoilerLogic.BoilerLogic.UpdateAntiLegionella` | firmware/esp32-homesite/src/boiler_logic.cpp:786-843 | the disinfection fields follow the model's step |
| `BoilerLogic.BoilerLogic.ComputeTarget` | firmware/esp32-homesite/src/boiler_logic.cpp:556-587 | the running maximum with its floor and cap is the model's auto target |
| `BoilerLogic.BoilerLogic.UpdateBoiler` | firmware/esp32-homesite/src/boiler_logic.cpp:529-615 | burner fields and boiler relay follow the model's step; no other relay moves |
| `BoilerLogic.BoilerLogic.NoticeSwitch` | firmware/esp32-homesite/src/boiler_logic.cpp:533-539 | notes when the relay switched since the last cycle |
| `BoilerLogic.BoilerLogic.RegulateBoiler` | firmware/esp32-homesite/src/boiler_logic.cpp:556-610 | stores the target and switches the relay as the model regulates it, unless frost protection holds it; when that is, both ways, says `ControllerDuties.BoilerRuns` |
| `BoilerLogic.BoilerLogic.UpdatePumps` | firmware/esp32-homesite/src/boiler_logic.cpp:619-652 | the three pump relays follow the model's step; no other relay moves |
| `BoilerLogic.BoilerLogic.UpdateAutofill` | firmware/esp32-homesite/src/boiler_logic.cpp:673-711 | fill fields and the two valve relays follow the model's step |
| `BoilerLogic.BoilerLogic.TripAutofillTimeout` | firmware/esp32-homesite/src/boiler_logic.cpp:664-671 | a timeout closes the valve and stores the lockout |
| `BoilerLogic.BoilerLogic.TickAutofill` | firmware/esp32-homesite/src/boiler_logic.cpp:722-729 | the fill part of the tick, with its pin writes |
| `BoilerLogic.BoilerLogic.FinishValvePulse` | firmware/esp32-homesite/src/boiler_logic.cpp:732-741 | ends a pulse on time, with its pin writes; no other relay moves |
| `BoilerLogic.BoilerLogic.DriveValve` | firmware/esp32-homesite/src/boiler_logic.cpp:847-907 | valve fields and its two relays follow the model's step; no other relay moves |
| `BoilerLogic.BoilerLogic.UpdateTeh` | firmware/esp32-homesite/src/boiler_logic.cpp:745-782 | heater fields and relay follow the model's step |
| `BoilerLogic.BoilerLogic.UpdateWell` | firmware/esp32-homesite/src/boiler_logic.cpp:402-448 | well fields and pump relay follow the model's step, of which `Well.PumpRunsIff` says when the pump runs and when it is stopped |
| `BoilerLogic.BoilerLogic.ApplyInterlocks` | firmware/esp32-homesite/src/boiler_logic.cpp:495-525 | boiler, both circuit pumps and the filling valve after the interlocks |
| `BoilerLogic.BoilerLogic.UpdateNoHeat` | firmware/esp32-homesite/src/boiler_logic.cpp:363-398 | the stall detection follows the model's step |
| `BoilerLogic.BoilerLogic.CollectCauses` | firmware/esp32-homesite/src/boiler_logic.cpp:932-982 | the bits of the cause mask are exactly the model's set of causes |
| `BoilerLogic.BoilerLogic.UpdateAlarms` | firmware/esp32-homesite/src/boiler_logic.cpp:926-998 | masks, mute and both lamps follow the model's step on sets |
| `BoilerLogic.BoilerLogic.ApplySettings` | firmware/esp32-homesite/src/boiler_logic.cpp:175-250 | an accepted setting takes effect at once, on the weather controller too |
| `BoilerLogic.BoilerLogic.ResetAutofillFault` | firmware/esp32-homesite/src/boiler_logic.cpp:264-268 | clears the lockout, in storage too |
| `BoilerLogic.BoilerLogic.ResetWell` | firmware/esp32-homesite/src/boiler_logic.cpp:252-256 | clears the dry-run latch |
| `BoilerLogic.BoilerLogic.MuteBuzzer` | firmware/esp32-homesite/src/boiler_logic.cpp:258-262 | mutes exactly the causes active now and writes the lamp off |
| `SettingTable.IsValid` | firmware/esp32-homesite/src/boiler_logic.cpp:95-133 | the check of one value against its row of the table |
| `SettingTable.LoadSettings` | firmware/esp32-homesite/src/boiler_logic.cpp:153-170 | the pass over the table ends with the settings that the stored values mean, each unless it fails its check and falls back to its default; what the values mean is `SettingTexts.ReadAsSaid`, and `StoredIsLoaded` for a boot |
| `SettingTable.ApplyIsDecode` | firmware/esp32-homesite/src/boiler_logic.cpp:196-250 | a setting that takes effect changes exactly the field of its key: the settings are always what the values in effect mean |
| `SettingTable.LoadedWithinLimits` | firmware/esp32-homesite/src/boiler_logic.cpp:9-12 | whatever the storage holds, a boot ends with settings the controller runs with, and within all limits of the table if and only if the leading digits of the heater delay and the disinfection duration are within theirs |
| `SettingTable.LiveWithinLimits` | firmware/esp32-homesite/src/boiler_logic.cpp:175-194 | the same for the settings in effect after any changes, failed writes and restarts |
| `SettingTable.IntegersMisread` | firmware/esp32-homesite/src/boiler_logic.cpp:103-106 | an accepted duration of 100 that takes effect as 1, and an accepted delay of 0 that takes effect as -1 |
| `SettingTable.PlainIntegersFit` | firmware/esp32-homesite/src/boiler_logic.cpp:222-244 | a plain decimal text takes effect as the number it was checked as |
| `SettingTable.OnSettingChanged` | firmware/esp32-homesite/src/boiler_logic.cpp:175-194 | status, storage and settings after a value from outside; what a whole set of values comes to is `SettingTexts.SettingsArrive` |
| `SettingTable.UntilChanged` | firmware/esp32-homesite/src/config_manager.cpp:196-215 | over any changes of other settings, failed writes and restarts, what a restart would take stays the same, and is in effect from the first restart on |
| `SettingTable.OkSurvives` | firmware/esp32-homesite/src/boiler_logic.cpp:190-193 | a value answered ok is still in effect, in any later state before its key is changed again, if and only if there was no restart, or it is not empty, or was written, or a restart takes the empty text anyway |
| `SettingTable.SurvivesIffStored` | firmware/esp32-homesite/src/boiler_logic.cpp:190-193 | whatever the answer, an accepted value survives a restart iff the memory took it or a restart would have taken it anyway |
| `SettingTable.ClearedDaysReturn` | firmware/esp32-homesite/src/config_manager.cpp:202-215 | a run in which cleared days are acknowledged and return |
| `SettingTexts.ReadAsSaid` | firmware/esp32-homesite/src/boiler_logic.cpp:196-250 | what each of the fifty texts means, as a table of its own: a flag is on iff its text is "1", a number is what the reader reads, an integer its plain digits, a time h:mm or hh:mm, a list itself; texts that say settings within the limits are read as exactly these settings |
| `SettingTexts.SaidIsAccepted` | firmware/esp32-homesite/src/boiler_logic.cpp:95-133 | such texts pass every check of the table |
| `SettingTexts.WrittenIsRead` | firmware/esp32-homesite/src/boiler_logic.cpp:26-77 | the round trip: any settings within the limits, written as texts, are accepted and read back as exactly these settings |
| `SettingTexts.SettingsArrive` | firmware/esp32-homesite/src/boiler_logic.cpp:175-194 | sent as single changes in any order, among any other changes, failed writes and restarts, they are in effect exactly as meant, once the last value of every key was stored or not restarted over |
| `SettingTexts.StoredIsLoaded` | firmware/esp32-homesite/src/boiler_logic.cpp:153-170 | a boot with their texts in storage takes exactly these settings |
| `SettingTexts.SentSettingsBoundTargets` | backend/app/core/setting_rules.py:253-269 | after any requests to the backend and any changes and restarts of the controller, once it has the backend's texts of the seven keys checked together, its burner's target keeps the bounds those checks are for |
| `Relays.CommitClashFree` | firmware/esp32-homesite/src/relay_controller.cpp:23-28 | a commit never has both outputs of a pair on in passing, if and only if the pair does not go from closing to opening |
| `Relays.ChangesOnce` | firmware/esp32-homesite/src/relay_controller.cpp:23-28 | a commit writes each channel at most once, in channel order |
| `Relays.ChangesLeadToStates` | firmware/esp32-homesite/src/relay_controller.cpp:23-28 | after a commit the pins carry the recorded states |
| `Relays.RelayController.constructor` | firmware/esp32-homesite/src/relay_controller.cpp:3-16 | all relays start off |
| `Relays.RelayController.Set` | firmware/esp32-homesite/src/relay_controller.cpp:18-21 | records the state; outside a batch the pin follows at once |
| `Relays.RelayController.Commit` | firmware/esp32-homesite/src/relay_controller.cpp:23-28 | ends the batch with exactly the writes of the changed channels, in order |
| `Autofill.PhasesKept` | firmware/esp32-homesite/src/boiler_logic.cpp:656-730 | open relay iff active, close relay iff closing, never both, fault implies not active, the stored flag equals the fault |
| `Autofill.InterlockUnreachable` | firmware/esp32-homesite/src/boiler_logic.cpp:512-515 | so the autofill branch of the interlocks never acts |
| `Autofill.ClosingNotReversed` | firmware/esp32-homesite/src/boiler_logic.cpp:673-711 | no input turns closing straight into opening |
| `Autofill.LockoutLasts` | firmware/esp32-homesite/src/boiler_logic.cpp:145-147 | a lockout survives every input and reboot but a reset or a wipe |
| `Autofill.OpenStretchBounded` | firmware/esp32-homesite/src/boiler_logic.cpp:684-730 | from the input that opens the valve to the one that closes it pass at most 120 s and a tick gap |
| `Autofill.FillsIff` | firmware/esp32-homesite/src/boiler_logic.cpp:673-711 | when a cycle opens the valve, keeps it open, closes it and locks it out, exactly, by the cycle that opened it |
| `Autofill.TickEnds` | firmware/esp32-homesite/src/boiler_logic.cpp:715-730 | a tick ends a closing 15 s after the input it began with and an opening more than 120 s after, which it locks out, and nothing else |
| `Valves.PulseKept` | firmware/esp32-homesite/src/boiler_logic.cpp:847-893 | while a pulse runs exactly the relay of its direction is on, it is at most 15 s long and started at the last adjustment; idle means both off |
| `Valves.PulseTowardsTarget` | firmware/esp32-homesite/src/boiler_logic.cpp:858-894 | a pulse starts only with 30 s of flow, 30 s after the last one, outside the deadband, and towards the target |
| `Valves.AdjustsIff` | firmware/esp32-homesite/src/boiler_logic.cpp:847-907 | when a cycle adjusts the valve and when it starts a pulse, and in which direction, exactly, by the cycle its flow began with |
| `Valves.PulseLength` | firmware/esp32-homesite/src/boiler_logic.cpp:882-887 | a pulse lasts 15 s from 10 degrees off on, below that 1 s and 1.4 s per degree, cut to the millisecond |
| `Valves.TickEndsPulse` | firmware/esp32-homesite/src/boiler_logic.cpp:732-741 | a tick ends a pulse iff its length has passed since the cycle that started it, and changes nothing else |
| `Valves.ClosingNotReversed` | firmware/esp32-homesite/src/boiler_logic.cpp:853-894 | with ticks at most 15 s apart closing is never turned straight into opening |
| `Valves.LaterTicksReverse` | firmware/esp32-homesite/src/boiler_logic.cpp:853-894 | the run with one tick 1 ms late turns closing straight into opening |
| `Valves.NeverReversesIffTimely` | firmware/esp32-homesite/src/boiler_logic.cpp:853-894 | for every gap: no run with the tick at least that often reverses, if and only if the gap is at most 15 s |
| `Well.DryIffStopped` | firmware/esp32-homesite/src/boiler_logic.cpp:402-448 | with the sensor configured at boot or not: dry iff waiting or locked, then the pump is off; locked iff three failures; stopped only with a sensor |
| `Well.KeptIffRead` | firmware/esp32-homesite/src/boiler_logic.cpp:402-448 | for arbitrary readings: flag and stop are right if and only if every commanded cycle since the stop began had a reading |
| `Well.RetryAfterPause` | firmware/esp32-homesite/src/boiler_logic.cpp:438-441 | after a dry-run pause begins the pump, left alone, runs again only 30 minutes later |
| `Well.LockLasts` | firmware/esp32-homesite/src/boiler_logic.cpp:416-419 | a lock lasts until off/on, reset or reboot |
| `Well.DryRunBounded` | firmware/esp32-homesite/src/boiler_logic.cpp:425-443 | on a dry well the pump runs at most 3 x (60 s + cycle gap) in all |
| `Well.PumpRunsIff` | firmware/esp32-homesite/src/boiler_logic.cpp:402-448 | after every cycle the pump runs iff commanded and not stopped; when it is stopped and when locked, exactly, by the cycles the pause and the low pressure began with and the tries used up |
| `Legionella.VerdictIffHeld` | firmware/esp32-homesite/src/boiler_logic.cpp:804-843 | the verdict of a window is passed iff the hold condition was met by its readings |
| `Legionella.RaisedUntilHeld` | firmware/esp32-homesite/src/boiler_logic.cpp:821-842 | inside a window the cycle is active, and the tank's target raised, exactly until the hold condition is met |
| `Legionella.InAlmWindowIff` | firmware/esp32-homesite/src/boiler_logic.cpp:797-804 | the window is the duration from the start on, modulo the day, on the listed days |
| `Legionella.RaisedOnlyInWindow` | firmware/esp32-homesite/src/boiler_logic.cpp:804-813 | the cycle is active only after a cycle inside the window |
| `Legionella.TargetNotRaised` | firmware/esp32-homesite/src/boiler_logic.cpp:489-491 | outside the window the tank keeps its own target |
| `AlarmLamps.MutedIffHistory` | firmware/esp32-homesite/src/boiler_logic.cpp:258-262 | a cause is muted iff it was active at the last mute and no cycle since found it gone for 5 minutes |
| `AlarmLamps.LampIffUnmuted` | firmware/esp32-homesite/src/boiler_logic.cpp:994-998 | the critical lamp is on iff some active cause is unmuted |
| `AlarmLamps.ForgetMutes` | firmware/esp32-homesite/src/boiler_logic.cpp:987-993 | the loop over the nine bits computes exactly the set version of the rule |
| `AlarmLamps.UnmutedIsDifference` | firmware/esp32-homesite/src/boiler_logic.cpp:998-998 | the mask test of the lamp is the set test |
| `AlarmLamps.StateIsHistory` | tools/house_emulator/controller.py:686-694 | the sets and times the port keeps are those of the history |
| `Heating.FrostIffHistory` | firmware/esp32-homesite/src/boiler_logic.cpp:331-351 | the hysteresis equals its history: frozen once and not thawed since |
| `Heating.FindLowest` | firmware/esp32-homesite/src/boiler_logic.cpp:331-341 | the pass over the sensors finds the lowest reading, if any |
| `Heating.LowestIsLowest` | firmware/esp32-homesite/src/boiler_logic.cpp:331-341 | it is a lower bound of all readings and one of them (or 1000) |
| `Heating.AutoTargetBounds` | firmware/esp32-homesite/src/boiler_logic.cpp:576-587 | minimum, cap and stop threshold of the auto target |
| `Heating.DisinfectionReachable` | firmware/esp32-homesite/src/boiler_logic.cpp:569-587 | a reachable disinfection temperature is a lower bound of the target while the tank loads |
| `Heating.FloorTargetRange` | firmware/esp32-homesite/src/boiler_logic.cpp:450-478 | for all valid settings and weather the floor target lies in [20, 60] |
| `Heating.CorrectionWithinLimit` | firmware/esp32-homesite/src/boiler_logic.cpp:470-478 | the room correction stays within its limit and at night only lowers |
| `Heating.CorrectionIsProportional` | firmware/esp32-homesite/src/boiler_logic.cpp:470-478 | the correction is factor and scale times what the room lacks, cut to the limit either way; at night nothing of it that raises, and without a factor or a reading of the last 10 minutes none |
| `Heating.CircuitsFollow` | firmware/esp32-homesite/src/boiler_logic.cpp:450-468 | each circuit's target is its weather target with the correction, or its setpoint without one, plus the night delta, and at least 20 |
| `HeatingRuns.TehOnlyAfterDelay` | firmware/esp32-homesite/src/boiler_logic.cpp:755-777 | from an idle heater on, in auto mode with one delay, whatever integer that is, it is on only after the tank wanted heat and the boiler gave none in every cycle of the delay |
| `HeatingRuns.TehNeverBlind` | firmware/esp32-homesite/src/boiler_logic.cpp:748-753 | in any mode it is on only if the last cycle read a tank below its target |
| `HeatingRuns.PumpIffCalled` | firmware/esp32-homesite/src/boiler_logic.cpp:619-638 | the tank pump equals its history: called for and not released since |
| `HeatingRuns.NoHeatOnlyIfStalled` | firmware/esp32-homesite/src/boiler_logic.cpp:363-398 | no heat is reported only with the boiler on in every cycle of at least half an hour, a window of 15 minutes with less than 2 degrees rise, and far below the target ever since |
| `HeatingRuns.NoHeatIff` | firmware/esp32-homesite/src/boiler_logic.cpp:363-398 | a cycle reports no heat iff the boiler burns far below its target, since half an hour, and stalled: over the window that ends here, or if it goes on over the last one that ended |
| `HeatingRuns.TehRunsIff` | firmware/esp32-homesite/src/boiler_logic.cpp:745-782 | when the heater is on after a cycle, exactly, over any changes of mode and delay |
| `HeatingRuns.LostIffMissed` | firmware/esp32-homesite/src/boiler_logic.cpp:281-303 | lost iff three cycles in a row missed the sensor |
| `WeatherCurve.AlwaysOnASegment` | firmware/esp32-homesite/src/pza_controller.cpp:28-44 | between the outer points a segment is always found: the last return is dead |
| `WeatherCurve.WithinEndPoints` | firmware/esp32-homesite/src/pza_controller.cpp:28-44 | the target stays within the curve's end points |
| `WeatherCurve.NonIncreasing` | firmware/esp32-homesite/src/pza_controller.cpp:28-44 | colder outside never means a lower target |
| `WeatherCurve.CurveTables` | firmware/esp32-homesite/src/pza_controller.cpp:6-22 | the ten curves rise towards the cold and are ordered by number |
| `WeatherCurve.OnTheLine` | firmware/esp32-homesite/src/pza_controller.cpp:28-44 | at the curve's points the target is the table's value, between two of them it lies on their straight line |
| `WeatherCurve.TargetsFollowWeather` | firmware/esp32-homesite/src/pza_controller.cpp:46-54 | each circuit has a target iff its curve is on and an outdoor reading is less than 15 minutes old, and it is the smoothed temperature's place on the line of its curve |
| `WeatherCurve.SmoothWithinReadings` | firmware/esp32-homesite/src/pza_controller.h:33-40 | the smoothed temperature stays in the hull of the readings since the last restart |
| `WeatherCurve.LastRestartIsLast` | firmware/esp32-homesite/src/pza_controller.h:33-40 | that restart is the last reading at which the filter started afresh |
| `WeatherCurve.LowPass` | firmware/esp32-homesite/src/pza_controller.h:31-40 | the filter solves the low-pass equation of its time constant, and starts at the reading itself after 15 minutes without one or without a constant |
| `WeatherCurve.SteadyWeatherReached` | firmware/esp32-homesite/src/pza_controller.h:31-40 | after equal readings over a time t at most tau / (tau + t) of the distance to them is left |
| `WeatherCurve.TargetWithinReadings` | firmware/esp32-homesite/src/pza_controller.h:33-40 | so the target lies between the targets of the extremes of those readings |
| `WeatherCurve.BackendCloseToFirmware` | backend/app/services/pza.py:25-39 | for every curve and temperature the backend is within 0.05 of the firmware |
| `WeatherCurve.PZAController.SetOutdoorTemp` | firmware/esp32-homesite/src/pza_controller.h:33-40 | the setter is the low-pass step of the model |
| `WeatherCurve.PZAController.SetIndoorTemp` | firmware/esp32-homesite/src/pza_controller.h:50-50 | stores the house average with its time |
| `Schedule.IsValidDays` | firmware/esp32-homesite/src/boiler_logic.cpp:117-130 | the character loop accepts exactly the empty string and comma-separated days 1 to 7 |
| `Schedule.IsValidTime` | firmware/esp32-homesite/src/boiler_logic.cpp:107-116 | exactly h:mm and hh:mm with h below 24 and mm below 60 pass |
| `Schedule.DayMatches` | firmware/esp32-homesite/src/ntp_time.cpp:43-55 | the tokenizer loop finds a day iff some part of the list reads as it |
| `Schedule.ListedIffInList` | firmware/esp32-homesite/src/ntp_time.cpp:43-55 | on an accepted list that is exactly the listed days |
| `Schedule.IsInSchedule` | firmware/esp32-homesite/src/ntp_time.cpp:37-69 | the schedule check: time known, day listed, minute in the possibly overnight window |
| `Schedule.WindowLength` | firmware/esp32-homesite/src/ntp_time.cpp:58-68 | a window has exactly (end - start) mod 1440 minutes |
| `Schedule.AlmWindowLength` | firmware/esp32-homesite/src/boiler_logic.cpp:798-802 | the computed end gives the disinfection its full duration, also over midnight |
| `Schedule.ScheduledIff` | firmware/esp32-homesite/src/ntp_time.cpp:37-69 | with an accepted list the schedule is active iff the time is known, the day listed, and the minute sooner after the start than the end is, midnight included |
| `Schedule.NormalizedIsAccepted` | backend/app/core/setting_rules.py:148-189 | every flag, integer, time and day list the backend stores passes the controller's check |
| `Schedule.NormalFormStays` | backend/app/core/setting_rules.py:148-189 | each of these normal forms is its own normal form, so what is stored can be sent back unchanged |
| `Schedule.FlagAsSent` | backend/app/core/setting_rules.py:150-158 | a flag is stored as "1" or "0" iff it was sent as true or false in one of the accepted ways |
| `SettingRules.ValidateSettings` | backend/app/core/setting_rules.py:208-273 | forbidden iff some key is admin only for a non-admin, naming those keys; accepted only with every key in normal form and no cross-field error; refused keys are named |
| `SettingRules.NormalizedAsSent` | backend/app/core/setting_rules.py:148-179 | a flag is stored as what it says and a number as itself, iff it is one, within its limits and whole where it must be |
| `SettingRules.SortUpdates` | backend/app/core/setting_rules.py:222-233 | the loop sorts each key into errors, forbidden or normalized |
| `SettingRules.CrossCheck` | backend/app/core/setting_rules.py:247-269 | the cross-field checks and the key each of them blames |
| `SettingRules.ChecksAreExact` | backend/app/core/setting_rules.py:247-269 | over coherent settings the checks find nothing iff the merged settings are coherent |
| `SettingRules.SettingsStayCoherent` | backend/app/core/setting_rules.py:247-269 | any sequence of requests by anyone keeps pressure min < max, boiler temp <= max, min <= max - 7 and, with the disinfection on, its temperature <= max - 7 |
| `SettingRules.UnrelatedSaveNotBlocked` | backend/app/core/setting_rules.py:253-269 | an old unreachable combination never blocks a save that does not touch it |
| `SettingRules.AcceptedSettingsBoundTargets` | backend/app/core/setting_rules.py:253-269 | settings kept coherent by the backend and delivered to the controller bound its boiler target; that they are delivered once the controller has their texts is part of `SettingTexts.SentSettingsBoundTargets` |
| `Convergence.Converges` | backend/device_gateway/dispatcher.py:60-205 | after any run that overtakes nothing of p and came to rest, the last value queued is the last published and the only one still retried; if queued since the device booted, the device holds it if valid, and p is unsynced exactly if refused, not stored, or given up since |
| `Convergence.StepKeeps` | backend/device_gateway/dispatcher.py:92-205 | every step that overtakes nothing of p keeps the invariant that ties queue, flushes, retries, records, channels, device and marks of p |
| `Convergence.ReceiveView` | firmware/esp32-homesite/src/boiler_logic.cpp:175-194 | the device takes over valid values only and answers each parameter |
| `StaleWrites.RevertsIffOvertakes` | backend/device_gateway/dispatcher.py:92-205 | after any run in order for p, a step can end at rest with an older value of p acknowledged, without new values and without another such step, if and only if it overtakes p |
| `StaleWrites.OvertakingReverts` | backend/device_gateway/dispatcher.py:92-205 | such an end exists after every overtaking step, at any later time, with nothing of p pending and the older value on the device if valid |
| `StaleWrites.OverlappingFlushesRevert` | backend/device_gateway/dispatcher.py:92-128 | the run of two flushes, the first of which fails after sending |
| `StaleWrites.StaleRetryReverts` | backend/device_gateway/dispatcher.py:172-205 | the run of a retry that waits for the confirmation of another device's retry while a complete flush sends the newer value |
| `StaleWrites.LateRecordReverts` | backend/device_gateway/dispatcher.py:106-120 | the run in which the older value is recorded after the newer one and then retried |
| `StaleWrites.UnrecordedPublishReverts` | backend/device_gateway/dispatcher.py:106-120 | the run without a second flush: a retry decided while the newer value is published but not recorded |
| `DispatcherRuns.Conservation` | backend/device_gateway/dispatcher.py:92-205 | a parameter once added stays queued, in flight, pending or unsynced until an ok names it, under any interleaving, loss or failure |
| `DispatcherRuns.BoundedPublishing` | backend/device_gateway/dispatcher.py:92-205 | the publications of a value never exceed its credit and what it gets by being queued anew, whatever other values do |
| `DispatcherRuns.AtMostThreeTimes` | backend/device_gateway/dispatcher.py:160-205 | in every run a value goes out at most 1 + MAX_RETRIES times for each time it was queued |
| `DispatcherRuns.GivesUpAfterRetries` | backend/device_gateway/dispatcher.py:160-194 | with no ack and no new value it is retried at each overdue check and unsynced after the last |
| `DispatcherRuns.GivesUpOnTime` | backend/device_gateway/dispatcher.py:160-194 | by the clock: with no ack and no new value it is retried at each check that comes later than its timeout after it was sent or last retried, twice, and given up as unsynced at the third |
| `DispatcherRuns.RecordedNow` | backend/device_gateway/dispatcher.py:114-120 | that clock starts when the publication is recorded |
| `DispatcherRuns.StatusShowsUnconfirmed` | backend/device_gateway/dispatcher.py:222-233 | in every run a setting once added and not confirmed since is shown as pending or unsynced, except while a flush holds it |
| `DispatcherRuns.ShownIffTracked` | backend/device_gateway/dispatcher.py:222-233 | with no flush holding it a parameter is shown iff the gateway knows it as unconfirmed |
| `Dispatcher.StatusShows` | backend/device_gateway/dispatcher.py:222-233 | shown as pending are exactly the queued and the awaited parameters, as unsynced the unsynced ones |
| `Debounce.StepSound` | backend/device_gateway/dispatcher.py:74-90 | every step keeps an armed timer for a non-empty queue |
| `Debounce.SendingNotPostponed` | backend/device_gateway/dispatcher.py:74-128 | its fire time is at most max(batch start + max wait, last failed flush + retry delay) |
| `Debounce.TimerAfter` | backend/device_gateway/dispatcher.py:60-84 | after a change at `now` the timer is exactly the later of `now` and the earlier of `now` + debounce and batch start + max wait; after a failed flush `now` + retry delay |
| `Debounce.TimerIsHistory` | backend/device_gateway/dispatcher.py:60-128 | in every run: armed iff a change or failed flush came after the last firing, and set as the last of them and the first since the last taking say |
| `Debounce.FiresWhenQuiet` | backend/device_gateway/dispatcher.py:60-90 | the timer fires less than the debounce after the last change only at the end of the batch's maximum wait, or for a failed flush that came after it |
| `Dispatcher.MergeOlder` | backend/device_gateway/dispatcher.py:122-127 | failed parameters go back under newer queued values |
| `Dispatcher.SweepPending` | backend/device_gateway/dispatcher.py:172-193 | the pass over the pending commands: retried, given up or kept, each with its bookkeeping |
| `Dispatcher.SettleKeys` | backend/device_gateway/dispatcher.py:140-151 | every acked key stops pending and is no longer unsynced |
| `Dispatcher.MarkRefused` | backend/device_gateway/dispatcher.py:152-153 | refused keys end up unsynced |
| `Dispatcher.RecordKeys` | backend/device_gateway/dispatcher.py:116-120 | every key just sent pends with its new value and no retries |
| `Dispatcher.AsyncCommandDispatcher.constructor` | backend/device_gateway/dispatcher.py:31-58 | idle, with the maximum wait at least the debounce |
| `Dispatcher.AsyncCommandDispatcher.DoScheduleFlush` | backend/device_gateway/dispatcher.py:74-84 | arms the timer as the model does: when that is, exactly, says `Debounce.TimerIsHistory` |
| `Dispatcher.AsyncCommandDispatcher.DoAddParam` | backend/device_gateway/dispatcher.py:60-72 | queues the newest value and clears the unsynced mark |
| `Dispatcher.AsyncCommandDispatcher.FlushTake` | backend/device_gateway/dispatcher.py:98-101 | takes everything queued |
| `Dispatcher.AsyncCommandDispatcher.FlushRecord` | backend/device_gateway/dispatcher.py:114-120 | expects acks for what was sent |
| `Dispatcher.AsyncCommandDispatcher.FlushRestore` | backend/device_gateway/dispatcher.py:122-128 | requeues what failed and arms the retry |
| `Dispatcher.AsyncCommandDispatcher.DoHandleAck` | backend/device_gateway/dispatcher.py:130-158 | settles the acked keys and returns the rejected ones |
| `Dispatcher.AsyncCommandDispatcher.CheckAckTimeouts` | backend/device_gateway/dispatcher.py:167-193 | the locked part: overdue commands are set aside for a retry or given up |
| `Dispatcher.PublishRetries` | backend/device_gateway/dispatcher.py:195-205 | its end: one grouped message to each device with something to retry that can be reached, and what was sent |
| `Resync.LongestPrefixWins` | backend/device_gateway/sync.py:16-21 | with the routes longest first, the longest matching prefix decides a key's device, and a key without a match has none |
| `Resync.RouteKey` | backend/device_gateway/sync.py:16-21 | the loop returns the device of the first match |
| `Resync.ResyncDevice` | backend/device_gateway/sync.py:24-38 | queues exactly the stored settings routed to the device, each once, with their values; everything else stays as it was |
| `Resync.AdditionsQueueAll` | backend/device_gateway/sync.py:32-35 | its additions, as events of a run, leave the dispatcher exactly as it does |
| `Resync.ResyncRestores` | backend/device_gateway/sync.py:1-6 | after any run and a reboot that loses all settings, then anything, then the additions of the resync, then anything that neither changes nor overtakes the setting nor reboots the device again, it is on the device at rest, if the device accepts it |
| `AlarmTracking.UpdateSound` | backend/app/services/alarm_rules.py:219-257 | the bookkeeping stays consistent and raised minus cleared reproduces the active codes |
| `AlarmTracking.UpdateOnePerGroup` | backend/app/services/alarm_rules.py:236-247 | after every update at most one active alarm per group |
| `AlarmTracking.GroupStaysCovered` | backend/app/services/alarm_rules.py:236-253 | a group with an active alarm keeps one through every update in which some member is seen |
| `AlarmTracking.CrashedCheckClearsNothing` | backend/app/services/health_monitor.py:227-231 | the update of a crashed check clears nothing, so dropping its list of cleared loses nothing |
| `AlarmTracking.SettleUnseen` | backend/app/services/alarm_rules.py:243-257 | the second half of the update: forget, replace, hold, clear |
| `AlarmTracking.AlarmTracker.DoUpdate` | backend/app/services/alarm_rules.py:219-257 | the update on the dictionaries is the model's |
| `AlarmTracking.AlarmTracker.SeeAlarm` | backend/app/services/alarm_rules.py:225-242 | one seen alarm: refreshed, escalated, waiting or raised, as the model does; which, exactly, says `AlarmRuns.RaisedIffDue` |
| `AlarmTracking.AlarmTracker.Ack` | backend/app/services/alarm_rules.py:265-269 | only an active alarm can be acknowledged |
| `AlarmRules.EvaluateDisciplined` | backend/app/services/alarm_rules.py:90-193 | in every snapshot the rules name at most one alarm per group, under its code's fixed group |
| `AlarmRules.EvaluateIff` | backend/app/services/alarm_rules.py:80-193 | a snapshot calls for exactly the alarms its readings, flags and links warrant, each with its level, delay and group; active ones stick by their hysteresis |
| `AlarmRules.UnknownIffBlind` | backend/app/services/alarm_rules.py:196-206 | a code is held as unknown iff a reading it goes by is missing |
| `AlarmRules.UnseenRoomIsWarm` | backend/app/services/alarm_rules.py:80-88 | an active room alarm stops being seen or held only with every reading of the room at 16 or more |
| `AlarmRuns.RaisedAfterDelay` | backend/app/services/alarm_rules.py:225-242 | a new alarm was seen in every poll since one at least its delay ago |
| `AlarmRuns.RaisedIffDue` | backend/app/services/alarm_rules.py:225-242 | over every run: an inactive code is raised at a poll iff the poll shows it and the wait that led there, seen and neither active nor raised at every poll and begun at the first of them, is as old as the delay of the last alarm the poll names for it; an active one iff the poll shows it at a higher level |
| `AlarmRuns.BooksKept` | backend/app/services/alarm_rules.py:225-263 | an acknowledgement lasts until the alarm is raised again or ends, the time since when is that of its raising, and its value is the last seen |
| `AlarmRuns.ClearedAfterAbsence` | backend/app/services/alarm_rules.py:247-256 | a clear that is no replacement was absent and not held in every poll for at least 120 s |
| `AlarmRuns.ClearedIffAbsent` | backend/app/services/alarm_rules.py:247-257 | a code is cleared iff its group was taken over, or the absence the poll is part of, unseen and not held at every poll since its first, is 120 s old |
| `AlarmRuns.MonitorOnePerGroup` | backend/app/services/alarm_rules.py:90-257 | in every state of rules and tracker in a loop at most one alarm per group is active |
| `AlarmRuns.ActivatedIffDue` | backend/app/services/alarm_rules.py:90-242 | with the rules in the loop: an inactive alarm is active after a check iff the check shows it and has shown it without a break for its delay |
| `AlarmRuns.DeactivatedIffAllClear` | backend/app/services/alarm_rules.py:90-257 | and an active one is gone after a check iff a seen one of its group is active then, or judged checks have for 120 s without a break not shown it with all its readings known, the controller online where it is about it, and none of its group waiting |
| `AlarmRuns.GroupCoveredThroughout` | backend/app/services/alarm_rules.py:236-253 | a group stays covered as long as every check crashes or shows some member: no false all-clear |
| `AlarmRuns.LogReproducesActive` | backend/app/services/health_monitor.py:220-231 | replaying the logged raises and clears gives exactly the active codes, crashed checks included |
| `AlarmRuns.ClearedRoomWasWarm` | backend/app/services/alarm_rules.py:80-88 | a room alarm clears only after 2 minutes of checks in all of which the room was known and at 16 or above |
| `Geometry.LegHits` | frontend/src/scheme/geometry.ts:176-191 | true iff some point of the closed segment lies strictly inside the box, for every segment and box |
| `Geometry.OverlapsIffSharedPoint` | frontend/src/scheme/geometry.ts:171-173 | two boxes share an interior point iff neither is empty and they overlap |

## Left out

- Convergence.Converges: channels lose nothing but what a reboot loses, and reorder nothing per device
  (`DispatcherRuns.Conservation` needs none of this); flushes are started by the timer, not by a shutdown.
- StaleWrites.OvertakingReverts: the model lets a coroutine pause wherever the code awaits something, also where it would not
  in fact have to wait, as before a flush's first publish.
- Dispatcher.AsyncCommandDispatcher.CheckAckTimeouts: up to the end of the locked section; the rest is
  `Dispatcher.PublishRetries`, and in runs the steps `Retry` and `RetryFails` of `Convergence.dfy`.
- DispatcherRuns.AtMostThreeTimes: counts publications that succeed; one that fails is queued again without limit.
- ControllerPromises.NoShortCycles: only auto mode with a reading below the maximum and without frost forcing; overtemperature,
  frost and manual commands switch at once, by design.
- ControllerPromises.WellStopped: the water sensor is configured at boot, so between two boots all updates have a reading or
  none has (firmware/esp32-homesite/src/main.cpp:465-466 and 548-550); `Well.KeptIffRead` is for arbitrary readings.
- Valves.ClosingNotReversed: only for ticks at most 15 s apart; `Valves.NeverReversesIffTimely` shows that this is exact.
- BoilerLogic.BoilerLogic.Begin: takes the settings as a parameter; reading and checking the stored ones is
  `SettingTable.LoadSettings`.
- Legionella.VerdictIffHeld: fixed settings and no reboot within the window.
- WeatherCurve.BackendCloseToFirmware: over exact reals; binary floating point is not modelled anywhere.
- BoilerLogic.BoilerLogic.ApplySettings: a change of settings replaces them by any settings the checks let through;
  keys, texts, storage and the answer are `SettingTable.OnSettingChanged`.
- SettingTexts.WrittenIsRead: the reader must read the fifteen numbers back as they were written, and integers up to 240.
- SettingTable.LoadSettings: how strtof() reads a text is a parameter, and toFloat() is taken to read what it reads;
  settings are stored under their keys, not under the hash of them.
- A disinfection start plus a duration beyond 31 bits (a duration text of ten digits or more) does not overflow here.
- SettingRules.ValidateSettings: the allowlist is a parameter; a stored number stands for its text (six significant digits),
  the text formats are a parameter (times and days are in `Schedule.dfy`), and error messages are left out.
- Schedule.NormalizedIsAccepted: numbers formatted as floats are left out, and number texts are ASCII.
- Fields of one part of the controller are grouped in one record each; the millisecond clock is read once per event, and
  wraps only in the boiler's held time. A clock that restarts at a boot is a boot event with a new time.
- Dictionaries of dictionaries in the dispatcher are one map over (device, key) pairs; log texts and the last publish error
  are left out.
- The order of the alarms returned as raised and cleared, their texts, and the list shown to people.
- HeatingRuns.TehOnlyAfterDelay: only for stretches in auto mode with one delay, from an idle heater on; over a change of
  mode or delay the relay keeps its old value while it waits, as `HeatingRuns.TehRunsIff` says.
- The heartbeat document, the relay bit mask reported in it, and the status counters of the dispatcher.
- Resync.ResyncDevice: the routes and stored settings are parameters, and nothing else runs between its additions.
- Advice rules, charts, backups, and the emulator's physics.
- MQTT, HTTP, SQL, authentication, WiFi, sensor drivers and the user interface apart from the clipping.
