# Marstek Venus battery coordinators, modelled in Dafny

The Marstek Venus Home Assistant integration drives up to three home batteries
from one grid-power meter. Once per cycle its coordinator does the following:
- reads the grid power and smooths it;
- works out the house power without the batteries ("real power");
- lets the wallbox logic take control while an electric car charges;
- otherwise chooses a direction (charge or discharge);
- ranks the batteries by state of charge (SoC) and picks how many to use;
- sends each battery a charge or discharge set-point.

This project models the two coordinator generations of the integration:

- **Second generation** (`custom_components/marstek_venus_ha_2/coordinator.py`).
  - The smoothing window and the real power.
  - The SoC ranking and its re-rank gate.
  - The three-level battery-count hysteresis ("staging").
  - The PID controller: dead-band, back-calculation anti-windup, integral clamp, reset and suspension.
  - The distribution: target clamp, PV cap, below-minimum cycle gate, SoC re-check, per-battery cap.
  - The wallbox pause/resume state machine.
  - The keyed service-call cache with its time-to-live (TTL).
  - The effective update interval.
  - The update cycle that ties these together.
- **First generation** (`custom_components/marstek_venus_ha/coordinator.py`).
  - The averaging window.
  - The ±50 W direction dead-band.
  - Re-ranking without a rate limit.
  - Threshold staging with an equal split.
  - The five-minute wallbox pause.
  - The mapping from a direction to the charge and discharge registers.

Conventions:
- Sensor readings are inputs. Each reading is an `Option` when the sensor can be unavailable.
- Time is a real number of seconds passed in as `now`. A timestamp that is still `datetime.min` ("never") is `None`.
- Battery actions are appended to a command log: `ZeroAll`, `SetBattery(id, power, direction)` and `HandOverToAutomatic(count)`.

Where the source updates fields in place, the model uses classes:
- `GridSmoother`, `PriorityRanker`, `PidState`, `PowerDistributor`, `WallboxArbiter` and `CallCache`;
- the two `Coordinator` classes.

Each method is proved against a function on values: `BoundedDeque.Append` with `SmoothedValue`, `Rank`, `AntiWindup`, `Plan`, `Step`, `Call` or `Cycle`. The lemmas state the source's promises about those functions.

Files:
- `common.dfy`: shared values (options, directions, commands) and Python's `int()`, `round()`, `min`/`max` and mean.
- `bounded_deque.dfy`: `deque(maxlen=n)`.
- `smoothing.dfy`, `ranking.dfy`, `staging.dfy`, `pid.dfy`, `distribution.dfy`, `wallbox.dfy` and `service_cache.dfy`: the parts of the second generation.
- `coordinator.dfy`: the second-generation update cycle.
- `first_generation.dfy`: the first generation. It reuses the deque, the ranking and the command loop.

Three behaviours of the second-generation code that a reader might expect otherwise:
- **Staging with nothing ranked.** The battery count is not reduced to 0 when no battery is ranked. `LimitByAvailable` leaves the count in 1..3, as lines 1243-1249 do.
- **Re-rank direction.** The re-rank direction is the sign of the real power (lines 1121-1127). It does not use the minimum surplus or consumption thresholds.
- **Re-rank trigger.** An empty priority list does not by itself trigger a re-rank. It only lifts the 10 s spacing (lines 1140-1147).

## Model

| member | source | states |
|---|---|---|
| Common.RoundHalfEven | custom_components/marstek_venus_ha_2/coordinator.py:1404 | `round()` lands within half a watt of its argument, is never negative for a non-negative argument and is exact on whole numbers |
| Common.Truncate | custom_components/marstek_venus_ha_2/coordinator.py:157-161 | `int()` on a float truncates toward zero: the result is the whole part, on the side of zero |
| Common.Clamp | custom_components/marstek_venus_ha_2/coordinator.py:807 | `max(-neg, min(pos, x))` lies in [-neg, pos] when that interval is non-empty, is `x` inside it and the violated bound outside it |
| Common.MeanWithinRange | custom_components/marstek_venus_ha_2/coordinator.py:859 | the average of a non-empty window lies between its smallest and largest sample |
| BoundedDeque.Newest | custom_components/marstek_venus_ha_2/coordinator.py:851 | a deque of capacity `cap` holds min(cap, count) entries, the newest ones in their original order |
| BoundedDeque.AppendAllKeepsNewest | custom_components/marstek_venus_ha_2/coordinator.py:851 | appending samples one at a time to a deque within capacity leaves exactly the newest `cap` of everything appended |
| Smoothing.DequeSize | custom_components/marstek_venus_ha_2/coordinator.py:150-161 | the window capacity is `max(1, int(seconds))`; a missing or non-numeric setting gives 1 |
| Smoothing.SmoothingDisabledMeansSingleSample | custom_components/marstek_venus_ha_2/coordinator.py:855-861 | smoothing is off exactly when the whole seconds are 0 or less, and then the window holds one sample; when it is on the capacity is the configured whole seconds (with 1 s it averages a one-sample window) |
| Smoothing.GridSmoother.Smooth | custom_components/marstek_venus_ha_2/coordinator.py:841-863 | an unreadable grid sensor returns None and leaves the window unchanged; a reading is appended and the result is the window mean (smoothing on) or the raw sample (off) |
| Smoothing.WindowAfterSamples | custom_components/marstek_venus_ha_2/coordinator.py:851 | after any run of readings the window is the newest min(capacity, count) of them, ending in the latest |
| Smoothing.SmoothedAfterSamples | custom_components/marstek_venus_ha_2/coordinator.py:851-863 | after any run of readings the smoothed power lies between the smallest and largest sample still in the window |
| Smoothing.SmoothedWithinWindow | custom_components/marstek_venus_ha_2/coordinator.py:858-861 | the smoothed power of a window ending in the current sample lies within the window's range |
| Smoothing.RealPower | custom_components/marstek_venus_ha_2/coordinator.py:883-907 | real power is the grid power plus the sum of the readable battery AC powers, one term per distinct battery as the dict of readings has (the `!= 0` branch makes no difference) |
| Smoothing.DuplicateCountedOnce | custom_components/marstek_venus_ha_2/coordinator.py:890-893 | a battery configured a second time does not change the real power: the dict keeps one reading per battery |
| Smoothing.NewBatteryAdds | custom_components/marstek_venus_ha_2/coordinator.py:890-893 | a newly configured, readable battery adds exactly its AC power to the real power |
| Smoothing.RepeatedBatteryExample | custom_components/marstek_venus_ha_2/coordinator.py:890-893 | the same battery listed twice with 100 W adds 100 W, not 200 W |
| Smoothing.UnreadableBatteryIgnored | custom_components/marstek_venus_ha_2/coordinator.py:890-893 | a battery whose AC power is unreadable does not change the real power |
| Smoothing.NoReadableBatteries | custom_components/marstek_venus_ha_2/coordinator.py:893-899 | with no readable battery, the real power is the grid power |
| Ranking.Available | custom_components/marstek_venus_ha_2/coordinator.py:1170-1179 | every candidate is a configured battery with a readable SoC, carries that SoC and is admitted: below `max_soc` to charge, above `min_soc` to discharge |
| Ranking.AvailableComplete | custom_components/marstek_venus_ha_2/coordinator.py:1171-1179 | no configured battery with a readable, admitted SoC is dropped |
| Ranking.AvailableIdsSubMultiset | custom_components/marstek_venus_ha_2/coordinator.py:1170-1179 | the candidates name each battery at most as often as the configuration does |
| Ranking.SortBySoc | custom_components/marstek_venus_ha_2/coordinator.py:1181-1182 | the sort result is ordered by SoC, descending exactly when discharging |
| Ranking.InsertPermutes | custom_components/marstek_venus_ha_2/coordinator.py:1182 | inserting into the sorted list adds exactly the inserted entry |
| Ranking.SortPermutes | custom_components/marstek_venus_ha_2/coordinator.py:1182 | sorting is a permutation: the same entries, each as often as before |
| Ranking.SortKeepsOrderOfTies | custom_components/marstek_venus_ha_2/coordinator.py:1182 | `sorted` is stable: for every SoC value, the batteries with that SoC come out in the order they went in, whatever the other entries |
| Ranking.InsertKeepsOrderOfTies | custom_components/marstek_venus_ha_2/coordinator.py:1182 | inserting an entry into a sorted list puts it in front of every entry with the same SoC and keeps their order |
| Ranking.TiesExample | custom_components/marstek_venus_ha_2/coordinator.py:1181-1182 | charging with SoC 50, 20, 50 for a, b, c ranks b, a, c: the tie keeps a before c |
| Ranking.Rank | custom_components/marstek_venus_ha_2/coordinator.py:1155-1182 | the reference definition of `_calculate_battery_priority`: nothing in NEUTRAL, else the admitted batteries sorted by SoC; its properties are `RankMembers`, `RankOrder`, `RankComplete` and `RankIdsBounded` |
| Ranking.ShouldRerank | custom_components/marstek_venus_ha_2/coordinator.py:1137-1151 | the re-rank gate: the direction changed or the interval elapsed, and the list is empty or 10 s passed; `RerankRateLimited` states its spacing |
| Ranking.RankMembers | custom_components/marstek_venus_ha_2/coordinator.py:1155-1182 | NEUTRAL ranks nothing; every ranked entry is a configured battery with a readable SoC below `max_soc` (charge) or above `min_soc` (discharge) |
| Ranking.RankOrder | custom_components/marstek_venus_ha_2/coordinator.py:1181-1182 | lowest SoC first when charging, highest first when discharging |
| Ranking.RankComplete | custom_components/marstek_venus_ha_2/coordinator.py:1170-1182 | every configured battery with a readable, admitted SoC is ranked |
| Ranking.RankIdsBounded | custom_components/marstek_venus_ha_2/coordinator.py:1170-1182 | the ranking is a permutation of a subset of the configured batteries |
| Ranking.GateDirection | custom_components/marstek_venus_ha_2/coordinator.py:1116-1127 | a given direction is used as is; otherwise CHARGE iff the real power is negative and DISCHARGE iff positive; no power and no direction means nothing happens |
| Ranking.RerankRateLimited | custom_components/marstek_venus_ha_2/coordinator.py:1137-1147 | a re-rank with a non-empty list is at least 10 s after the previous one, and without a direction change more than the interval after it |
| Ranking.PriorityRanker.Recalculate | custom_components/marstek_venus_ha_2/coordinator.py:1155-1182 | the loop and sort leave the priority list equal to the ranking of the readings |
| Ranking.PriorityRanker.UpdateIfNeeded | custom_components/marstek_venus_ha_2/coordinator.py:1108-1153 | list, last direction and timestamp change only on a re-rank (direction changed or interval elapsed, and empty list or 10 s passed), and then together |
| Staging.StageThresholds | custom_components/marstek_venus_ha_2/coordinator.py:1188-1193 | the discharge stage pair is used exactly when the last direction is DISCHARGE |
| Staging.ActiveCountExtremes | custom_components/marstek_venus_ha_2/coordinator.py:1198-1203 | the running count is all batteries when all run above 10 W and zero when none does |
| Staging.LimitByAvailable | custom_components/marstek_venus_ha_2/coordinator.py:1243-1249 | one ranked battery gives 1, two or more cap the count at that number, none leaves it unchanged |
| Staging.ActiveCount | custom_components/marstek_venus_ha_2/coordinator.py:1198-1203 | the number of configured batteries running above 10 W, never more than are configured; `ActiveCountExtremes` states its extremes |
| Staging.StageTarget | custom_components/marstek_venus_ha_2/coordinator.py:1208-1240 | the hysteresis table, always 1 to 3 batteries; `SwitchNeedsMargin`, `TargetIsStable` and `TargetMonotoneInPower` state its margins |
| Staging.DesiredCount | custom_components/marstek_venus_ha_2/coordinator.py:1185-1252 | the reference definition of `_get_desired_number_of_batteries`: the table under the direction's stages, limited by availability |
| Staging.DesiredNumberOfBatteries | custom_components/marstek_venus_ha_2/coordinator.py:1185-1252 | the count is the hysteresis table limited by availability, always in [1, 3] and never above a non-zero number of ranked batteries |
| Staging.SwitchNeedsMargin | custom_components/marstek_venus_ha_2/coordinator.py:1210-1240 | stepping up needs power above a stage plus the offset; stepping down needs power below a stage minus the offset |
| Staging.TargetIsStable | custom_components/marstek_venus_ha_2/coordinator.py:1208-1240 | once the chosen count is running, the same power keeps it (no flapping) |
| Staging.TargetMonotoneInPower | custom_components/marstek_venus_ha_2/coordinator.py:1208-1240 | more power never asks for fewer batteries |
| Staging.TwoHoldInsideBand | custom_components/marstek_venus_ha_2/coordinator.py:1221-1229 | two running batteries stay two inside [stage 1 − offset, stage 2 + offset] |
| Staging.ChargeUpshiftFromSingle | tests/test_control_logic.py:39-55 | stages 1800/3600 W with a 100 W offset and no battery running: 1700, 2000 and 3800 W give 1, 2 and 3 |
| Staging.DischargeHoldTwo | tests/test_control_logic.py:58-86 | discharge stages 1400/2000 W with two running: 1500 and 2050 W keep 2, 1200 W gives 1, 2200 W gives 3 |
| Pid.DeadBand | custom_components/marstek_venus_ha_2/coordinator.py:774-777 | outputs below 1 W in magnitude become 0, and only those |
| Pid.ComputeOutput | custom_components/marstek_venus_ha_2/coordinator.py:761-777 | the output is 0 or at least 1 W in magnitude, and is the PID sum whenever that sum is at least 1 W in magnitude |
| Pid.BackCalculationTracks | custom_components/marstek_venus_ha_2/coordinator.py:809-812 | after back-calculation the controller would output exactly the saturated value |
| Pid.OutputBounded | custom_components/marstek_venus_ha_2/coordinator.py:822-828 | the output lies in [−sat_neg, sat_pos] and is 0 or at least 1 W in magnitude |
| Pid.IntegralBounded | custom_components/marstek_venus_ha_2/coordinator.py:814-820 | with ki ≠ 0 the integral stays within max(sat_pos, sat_neg)/\|ki\| |
| Pid.NoIntegralWithoutKi | custom_components/marstek_venus_ha_2/coordinator.py:796-799 | with ki = 0 the integral is untouched and the output is the dead-banded, clamped kp·e + kd·d |
| Pid.NoIntegrationWithoutTime | custom_components/marstek_venus_ha_2/coordinator.py:801-803 | without a positive time step and without saturation the integral does not move |
| Pid.PureIntegralTracksSaturation | custom_components/marstek_venus_ha_2/coordinator.py:801-820 | with kp = kd = 0, ki·integral equals the saturated output of the step (the safety clamp never bites) |
| Pid.TrackedIntegralStaysInBound | custom_components/marstek_venus_ha_2/coordinator.py:814-820 | for a pure integral controller the back-calculated integral is already inside the safety clamp |
| Pid.KiZeroClampsOutput | tests/test_pid.py:13-25 | kp = 1, ki = 0, error 100 W with 10 W limits gives 10 W |
| Pid.ZeroTimeStepDoesNotIntegrate | tests/test_pid.py:28-40 | dt = 0 leaves the integral at 5 and outputs 5 |
| Pid.UnsaturatedIntegrates | tests/test_pid.py:43-57 | error 2 over 3 s makes integral and output 6 |
| Pid.SaturatedPositiveBackCalculates | tests/test_pid.py:60-73 | saturated at +10 W: output 10 and the integral is pulled back to 10 |
| Pid.SaturatedNegativeBackCalculates | tests/test_pid.py:76-89 | saturated at −10 W with ki = 2: output −10 and integral −5 |
| Pid.TimeStep | custom_components/marstek_venus_ha_2/coordinator.py:698-701 | the time step is 0 on the first step and otherwise the elapsed seconds, never negative |
| Pid.Derivative | custom_components/marstek_venus_ha_2/coordinator.py:703-705 | the derivative times the time step is the error change; it is 0 without a time step or an earlier error |
| Pid.PidState.Reset | custom_components/marstek_venus_ha_2/coordinator.py:756-759 | the integral becomes 0 and the previous error and time are cleared |
| Pid.AntiWindup | custom_components/marstek_venus_ha_2/coordinator.py:779-828 | the reference definition of `_pid_apply_anti_windup`: output and new integral; `OutputBounded`, `IntegralBounded`, `BackCalculationTracks` and the test lemmas state its properties |
| Pid.ShouldResume | custom_components/marstek_venus_ha_2/coordinator.py:657-661 | a suspended PID resumes on a surplus beyond the minimum surplus (CHARGE) or a consumption beyond the minimum consumption (DISCHARGE), never in NEUTRAL |
| Pid.PidState.ApplyAntiWindup | custom_components/marstek_venus_ha_2/coordinator.py:779-828 | the in-place steps leave the output and integral of `AntiWindup`, whose properties are the lemmas above |
| Distribution.ClampTarget | custom_components/marstek_venus_ha_2/coordinator.py:1257-1267 | the requested count is clamped to [0, number of configured batteries] |
| Distribution.Magnitude | custom_components/marstek_venus_ha_2/coordinator.py:1269-1284 | the magnitude is \|power\|, capped at max(0, pv) when charging with readable PV |
| Distribution.EligibleOf | custom_components/marstek_venus_ha_2/coordinator.py:1364-1390 | each battery kept by the re-check was chosen, has a non-empty id and a readable SoC, and is not full (charge) or empty (discharge) |
| Distribution.EligibleOfComplete | custom_components/marstek_venus_ha_2/coordinator.py:1364-1390 | no chosen battery that passes the re-check is dropped |
| Distribution.PerBatteryPower | custom_components/marstek_venus_ha_2/coordinator.py:1404-1409 | the share is round(magnitude / n), capped by the maximum power of the direction (no cap in NEUTRAL) |
| Distribution.BatteryCommands | custom_components/marstek_venus_ha_2/coordinator.py:1421-1425 | one command per configured battery in order: the share and direction if driven, 0 W NEUTRAL otherwise |
| Distribution.BelowMinStep | custom_components/marstek_venus_ha_2/coordinator.py:1286-1336 | a call below the minimum counts in its direction and clears the other counter; at the limit it only zeroes all, clears the counters and, from the PID, suspends it in that direction |
| Distribution.BelowMinChargeCountsThenZeroes | tests/test_control_logic.py:117-156 | from cleared counters, k below-minimum charge calls (k below the limit) leave the counter at k without zeroing; the call that reaches the limit zeroes all and resets |
| Distribution.BelowMinContinues | custom_components/marstek_venus_ha_2/coordinator.py:1347-1425 | a call the gate lets through zeroes all batteries only when none is to be driven |
| Distribution.NoEligibleZeroesAndResets | custom_components/marstek_venus_ha_2/coordinator.py:1392-1402 | with a positive target but no chosen battery passing the SoC re-check, all batteries are zeroed and a PID-driven call resets the PID |
| Distribution.ZeroTargetZeroesAll | custom_components/marstek_venus_ha_2/coordinator.py:1346-1349 | a target of 0 zeroes all batteries and leaves the PID alone |
| Distribution.AboveMinResetsCounters | custom_components/marstek_venus_ha_2/coordinator.py:1339-1344 | a call at or above the minimum in CHARGE or DISCHARGE clears both counters |
| Distribution.DrivenBatteriesAreSafe | custom_components/marstek_venus_ha_2/coordinator.py:1351-1425 | every driven battery is in the first `target` ranked ones, has a readable SoC inside the bound of the direction, and gets at most the direction's maximum power |
| Distribution.CommandsUseDirection | custom_components/marstek_venus_ha_2/coordinator.py:1421-1425 | no battery is driven against the requested direction; the rest get 0 W NEUTRAL |
| Distribution.SharesAreEqual | custom_components/marstek_venus_ha_2/coordinator.py:1404-1425 | every driven battery gets the same share, at most half a watt above magnitude / n |
| Distribution.CapsShareAtMaxCharge | tests/test_control_logic.py:89-114 | 6000 W over two batteries with a 2500 W cap gives each 2500 W in CHARGE |
| Distribution.FilterEligible | custom_components/marstek_venus_ha_2/coordinator.py:1364-1390 | the re-check loop keeps exactly the eligible chosen batteries, in order |
| Distribution.EmitCommands | custom_components/marstek_venus_ha_2/coordinator.py:1421-1425 | the command loop emits the per-battery commands above |
| Distribution.PowerDistributor.CountBelowMinimum | custom_components/marstek_venus_ha_2/coordinator.py:1286-1344 | the counter updates and the stop decision are those of the below-minimum gate |
| Distribution.Gate | custom_components/marstek_venus_ha_2/coordinator.py:1286-1344 | a NEUTRAL call leaves the counters alone; otherwise at most one counter is non-zero; stopping clears both counters, happens only below the direction's minimum and suspends the PID in that direction only when called from the PID |
| Distribution.Plan | custom_components/marstek_venus_ha_2/coordinator.py:1254-1425 | a call either zeroes all batteries or sends one command per configured battery, and asks the PID to suspend or reset only when called from the PID and with all batteries zeroed |
| Distribution.PowerDistributor.Distribute | custom_components/marstek_venus_ha_2/coordinator.py:1254-1425 | commands, PID effect and new counters are those of `Plan`, whose properties are the lemmas above |
| Wallbox.HistoryCapacity | custom_components/marstek_venus_ha_2/coordinator.py:150-161 | the wallbox history holds at least one sample |
| Wallbox.StepKeepsConsistent | custom_components/marstek_venus_ha_2/coordinator.py:909-1106 | a pause only exists with the cable plugged in and an attempt stamped, and the history never exceeds its capacity |
| Wallbox.PausedStepKeepsConsistent | custom_components/marstek_venus_ha_2/coordinator.py:988-1044 | the paused rules keep that invariant |
| Wallbox.TookControlIffZeroed | custom_components/marstek_venus_ha_2/coordinator.py:909-1106 | the logic takes control exactly when it zeroes all batteries, and otherwise sends nothing |
| Wallbox.IncompleteConfigurationClearsPause | custom_components/marstek_venus_ha_2/coordinator.py:923-931 | missing sensors or maximum surplus: never in control, pause and cable flag cleared, history and timers kept |
| Wallbox.UnplugResets | custom_components/marstek_venus_ha_2/coordinator.py:953-962 | unplugging after a paused or plugged-in cycle ends the pause, clears history and timers and forgets the cooldown |
| Wallbox.PauseStartsOnlyAfterCooldown | custom_components/marstek_venus_ha_2/coordinator.py:1047-1096 | a pause starts only with the cable in, after the cooldown, on a surplus beyond the maximum; it stamps both timers and zeroes all |
| Wallbox.PauseStartsWhenSurplus | custom_components/marstek_venus_ha_2/coordinator.py:1050-1096 | conversely, with the cable plugged in, no discharge veto, the cooldown over and either surplus condition, an unpaused wallbox logic starts a pause: it takes control, zeroes all batteries and stamps both timers with the current time |
| Wallbox.CooldownBlocksNewPause | custom_components/marstek_venus_ha_2/coordinator.py:1050-1097 | within retry_minutes·60 s of the last attempt no pause starts |
| Wallbox.DischargeVeto | custom_components/marstek_venus_ha_2/coordinator.py:982-985 | a car above 100 W while discharging zeroes all and takes control without touching the pause |
| Wallbox.PauseEndsExactlyWhen | custom_components/marstek_venus_ha_2/coordinator.py:988-1044 | a pause ends exactly when: the surplus is gone with the car idle; the start delay ran out; or a full history is steady. Otherwise the batteries stay at 0 W |
| Wallbox.WallboxArbiter.ReleasePause | custom_components/marstek_venus_ha_2/coordinator.py:994-996 | clears pause, history and start-delay timer only |
| Wallbox.WallboxArbiter.StartPause | custom_components/marstek_venus_ha_2/coordinator.py:1068-1070 | stamps the cooldown and start delay with `now` and pauses |
| Wallbox.WallboxArbiter.HandlePaused | custom_components/marstek_venus_ha_2/coordinator.py:988-1044 | the in-place paused rules give the result of the paused step |
| Wallbox.Step | custom_components/marstek_venus_ha_2/coordinator.py:909-1106 | the logic takes control only with both sensors, a valid maximum surplus and the cable plugged in, and a pause survives only there (or untouched under an invalid maximum surplus) |
| Wallbox.PausedStep | custom_components/marstek_venus_ha_2/coordinator.py:988-1044 | the paused rules never touch the cable flag or the cooldown stamp, and ending a pause hands back control with an empty history |
| Wallbox.WallboxArbiter.Handle | custom_components/marstek_venus_ha_2/coordinator.py:909-1106 | the in-place handler gives the result and state of `Step`, whose properties are the lemmas above |
| ServiceCache.TtlSeconds | custom_components/marstek_venus_ha_2/coordinator.py:386-393 | the TTL is the whole seconds of the setting, 0 at or below zero, the default for an unconvertible value |
| ServiceCache.OnlySentCallsWrite | custom_components/marstek_venus_ha_2/coordinator.py:411-440 | only a call that went through changes the cache, and only its own key, to the value and time sent |
| ServiceCache.ReachesServiceIff | custom_components/marstek_venus_ha_2/coordinator.py:411-418 | a call is skipped unless forced, new, different or expired, and only then |
| ServiceCache.RepeatIsSkipped | custom_components/marstek_venus_ha_2/coordinator.py:411-418 | repeating a sent value is skipped while fresh, and forever with a TTL of 0 |
| ServiceCache.FailedCallIsRetried | custom_components/marstek_venus_ha_2/coordinator.py:429-440 | a failed call caches nothing, so the next identical call is sent |
| ServiceCache.Call | custom_components/marstek_venus_ha_2/coordinator.py:395-440 | the reference definition of `_async_call_cached`: skip, missing service, failure or sent, and the cache after; `ReachesServiceIff`, `OnlySentCallsWrite`, `RepeatIsSkipped` and `FailedCallIsRetried` state its properties |
| ServiceCache.CallCache.CallCached | custom_components/marstek_venus_ha_2/coordinator.py:395-440 | the in-place cache update and outcome are those of `Call` |
| CoordinatorV2.PvWatts | custom_components/marstek_venus_ha_2/coordinator.py:865-881 | PV power is None exactly when unreadable, with kW scaled to W |
| CoordinatorV2.EffectiveUpdateInterval | custom_components/marstek_venus_ha_2/coordinator.py:1577-1593 | 10 s in CT mode without wallbox control, the configured interval otherwise |
| CoordinatorV2.Coordinator.UpdateInterval | custom_components/marstek_venus_ha_2/coordinator.py:172-173 | the coordinator reports the effective interval for its mode and wallbox flag |
| CoordinatorV2.Saturation | custom_components/marstek_venus_ha_2/coordinator.py:718-719 | the PID limit is the direction's maximum power times max(1, count) |
| CoordinatorV2.ApplyEffect | custom_components/marstek_venus_ha_2/coordinator.py:1300-1336 | a suspension sets the suspended flag and direction; a suspension or reset clears integral, error and time |
| CoordinatorV2.UnreadableGridSkipsCycle | custom_components/marstek_venus_ha_2/coordinator.py:632-635 | an unreadable grid sensor changes nothing and sends nothing |
| CoordinatorV2.WallboxControlPreemptsBatteries | custom_components/marstek_venus_ha_2/coordinator.py:643-650 | under wallbox control the cycle only zeroes all and clears the PID timing; ranking, counters, integral and suspension are kept |
| CoordinatorV2.ActiveOnlyAfterTakingControl | custom_components/marstek_venus_ha_2/coordinator.py:643-644 | the wallbox flag records whether the wallbox logic took control this cycle |
| CoordinatorV2.SuspensionHoldsAtZero | custom_components/marstek_venus_ha_2/coordinator.py:653-666 | a suspended PID holds all at 0 W, keeps its state and ranking until the load crosses its threshold |
| CoordinatorV2.CtModeOnlyHandsOver | custom_components/marstek_venus_ha_2/coordinator.py:652-684 | in CT mode the PID never runs: the cycle hands 1 to 3 batteries over and leaves PID state and counters alone |
| CoordinatorV2.PidStepRecordsError | custom_components/marstek_venus_ha_2/coordinator.py:729-730 | a PID step records its error and time unless the distribution suspended or reset the PID (which clears them and zeroes all batteries); every step that does not end in zeroing all batteries records them |
| CoordinatorV2.PidCommandsFollowOutputSign | custom_components/marstek_venus_ha_2/coordinator.py:732-754 | a zero output only zeroes all; otherwise every battery is driven in the sign's direction or set to 0 W |
| CoordinatorV2.DriveFollowsSign | custom_components/marstek_venus_ha_2/coordinator.py:736-754 | a positive output charges and a negative one discharges; no battery is driven the other way |
| CoordinatorV2.Coordinator.Regulate | custom_components/marstek_venus_ha_2/coordinator.py:695-730 | output and integral are the anti-windup step under the first staging call's limits; error and time are recorded |
| CoordinatorV2.Coordinator.Drive | custom_components/marstek_venus_ha_2/coordinator.py:736-754 | re-ranks, stages, caps and distributes the output as `PidDrive` states |
| CoordinatorV2.Coordinator.ApplyPidEffect | custom_components/marstek_venus_ha_2/coordinator.py:1300-1336 | a suspension sets the PID's suspended flag and direction and clears its state, a reset only clears it, anything else leaves the coordinator unchanged |
| CoordinatorV2.Coordinator.PidControlStep | custom_components/marstek_venus_ha_2/coordinator.py:690-754 | the sub-objects end in the state, and emit the commands, of the PID step |
| CoordinatorV2.Coordinator.RunPid | custom_components/marstek_venus_ha_2/coordinator.py:652-674 | the suspend branch holds at 0 W or releases the suspension, then runs the PID step |
| CoordinatorV2.Coordinator.RunStaged | custom_components/marstek_venus_ha_2/coordinator.py:676-688 | re-rank, stage, then hand over (CT mode) or distribute |
| CoordinatorV2.PidDrive | custom_components/marstek_venus_ha_2/coordinator.py:736-754 | the reference definition of driving a non-zero PID output: re-rank, stage, cap and distribute; `DriveFollowsSign` states its direction |
| CoordinatorV2.PidStep | custom_components/marstek_venus_ha_2/coordinator.py:690-754 | the reference definition of `_pid_control_step`; `PidStepRecordsError` and `PidCommandsFollowOutputSign` state its properties |
| CoordinatorV2.PidBranch | custom_components/marstek_venus_ha_2/coordinator.py:652-674 | the reference definition of the suspend branch: hold at 0 W unless `ShouldResume`, else release and step; `SuspensionHoldsAtZero` states the hold |
| CoordinatorV2.Staged | custom_components/marstek_venus_ha_2/coordinator.py:676-688 | the reference definition of the non-PID path: re-rank, stage, then hand over (CT mode) or distribute; `CtModeOnlyHandsOver` states the CT mode |
| CoordinatorV2.Cycle | custom_components/marstek_venus_ha_2/coordinator.py:627-688 | the reference definition of `_async_update`; `UnreadableGridSkipsCycle`, `WallboxControlPreemptsBatteries` and `ActiveOnlyAfterTakingControl` state its properties |
| CoordinatorV2.Coordinator.Update | custom_components/marstek_venus_ha_2/coordinator.py:627-688 | the objects end in the state, and emit the commands, of one cycle; the lemmas above state the cycle's properties |
| FirstGeneration.DequeSize | custom_components/marstek_venus_ha/coordinator.py:58-61 | the window capacity is max(1, smoothing_seconds // 1) |
| FirstGeneration.WindowIsNewestSamples | custom_components/marstek_venus_ha/coordinator.py:113-130 | after any run of samples the window holds the newest min(count, capacity), and their mean lies in their range |
| FirstGeneration.DirectionHasDeadBand | custom_components/marstek_venus_ha/coordinator.py:137-143 | CHARGE iff below −50 W, DISCHARGE iff above 50 W, NEUTRAL in between; the rule is symmetric |
| FirstGeneration.RerankIff | custom_components/marstek_venus_ha/coordinator.py:135-189 | re-ranks iff the direction changed or the interval elapsed (no rate limit); the new list is sorted and admitted; otherwise nothing changes |
| FirstGeneration.NoRateLimit | custom_components/marstek_venus_ha/coordinator.py:148-155 | a direction change one second after a re-rank re-ranks again |
| FirstGeneration.StageCount | custom_components/marstek_venus_ha/coordinator.py:204-209 | 1 to 3 batteries, never more than are ranked |
| FirstGeneration.StageCountMonotone | custom_components/marstek_venus_ha/coordinator.py:204-209 | more power never stages fewer; with three ranked, the count is the number of stages exceeded |
| FirstGeneration.Direction | custom_components/marstek_venus_ha/coordinator.py:137-143 | the first generation's direction rule; `DirectionHasDeadBand` states the ±50 W band |
| FirstGeneration.Rerank | custom_components/marstek_venus_ha/coordinator.py:135-189 | the reference definition of the first generation's re-rank; `RerankIff` and `NoRateLimit` state its properties |
| FirstGeneration.Distribute | custom_components/marstek_venus_ha/coordinator.py:192-225 | the reference definition of the first generation's `_distribute_power`; `DistributeSplitsEqually` states its split |
| FirstGeneration.DistributeSplitsEqually | custom_components/marstek_venus_ha/coordinator.py:192-225 | zeroes all iff nothing ranked or NEUTRAL; otherwise each configured battery gets one command, round(\|p\|/n) in the direction exactly when it is in the staged top n, 0 W NEUTRAL otherwise |
| FirstGeneration.RegisterWrites | custom_components/marstek_venus_ha/coordinator.py:281-295 | the charge and discharge register values of `_set_battery_power`; `RegisterWritesExclusive` states them |
| FirstGeneration.RegisterWritesExclusive | custom_components/marstek_venus_ha/coordinator.py:286-295 | charge writes (power, 0), discharge (0, power), anything else (0, 0); never both non-zero |
| FirstGeneration.DistributionWritesOneRegister | custom_components/marstek_venus_ha/coordinator.py:221-225 | a distribution writes the share only to the register of the stored direction |
| FirstGeneration.WallboxControlIff | custom_components/marstek_venus_ha/coordinator.py:227-279 | takes control iff configured, plugged in and (car above 10 W while discharging, or surplus above the maximum while charging); unplugging clears the pause |
| FirstGeneration.PauseKeepsFirstStamp | custom_components/marstek_venus_ha/coordinator.py:260-265 | the pause timestamp is set on the first held cycle and kept after |
| FirstGeneration.PauseEnds | custom_components/marstek_venus_ha/coordinator.py:267-277 | a pause not held by surplus ends after 5 min with the car idle, or when the car draws power |
| FirstGeneration.SurplusHoldsPauseIndefinitely | custom_components/marstek_venus_ha/coordinator.py:255-273 | while every windowed sample shows surplus above the maximum, a pause holds all at 0 W with its first stamp, however old |
| FirstGeneration.Coordinator.SmoothedGridPower | custom_components/marstek_venus_ha/coordinator.py:113-133 | an unreadable grid returns None with the window unchanged; otherwise the sample is appended and the mean returned |
| FirstGeneration.Coordinator.UpdatePriorityIfNeeded | custom_components/marstek_venus_ha/coordinator.py:135-189 | the ranker ends in the state of `Rerank` |
| FirstGeneration.Coordinator.DistributePower | custom_components/marstek_venus_ha/coordinator.py:192-225 | the commands are those of `Distribute` |
| FirstGeneration.Coordinator.HandleWallbox | custom_components/marstek_venus_ha/coordinator.py:227-279 | control, commands and pause stamp are those of `WallboxStep` |
| FirstGeneration.WallboxStep | custom_components/marstek_venus_ha/coordinator.py:227-279 | the reference definition of the first generation's wallbox logic; `WallboxControlIff`, `PauseKeepsFirstStamp`, `PauseEnds` and `SurplusHoldsPauseIndefinitely` state its properties |
| FirstGeneration.Cycle | custom_components/marstek_venus_ha/coordinator.py:92-111 | the reference definition of the first generation's `_async_update`; `SurplusHoldsPauseIndefinitely` follows it over a cycle |
| FirstGeneration.Coordinator.Update | custom_components/marstek_venus_ha/coordinator.py:92-111 | the objects end in the state, and emit the commands, of one first-generation cycle |

## Left out

- Home Assistant itself is not modelled: state reads, service calls, entity ids, `asyncio.gather` and logging. Readings are inputs and battery actions are a command log.
  - `_set_battery_power` in the second generation is the command `SetBattery`. Its expansion into cached switch, number and select calls is not modelled. The cache is modelled on its own.
  - The first generation's two register writes are `RegisterWrites`.
- Scheduling and concurrency are not modelled: the update lock and coalescing, delayed updates, start/stop listening (and the cache clear on start), waiting for entities. Each cycle is one call of `Update`.
- CT mode's `_disable_modbus_control_mode` is the single command `HandOverToAutomatic(count)`. The switch toggling it performs is not modelled.
- Each cycle reads the clock once (`now`); the source calls `datetime.now()` several times.
  - As a result, the second start-delay check in the wallbox's paused branch (lines 1032-1039) cannot fire: the first check at lines 1000-1007 has already released an expired timer. That check is not repeated in the model.
- Datetime and time-zone handling is left out: `_as_aware_datetime` and the diagnostic `*_remaining_seconds`, `*_end` and `*_iso` properties. Time is seconds; `datetime.min` is `None`.
- Floating point is modelled as exact reals; Python's `round()` is modelled exactly (half to even).
- Parsing strings to floats is an input: a reading is either readable or not. The kW→W scaling of the PV and wallbox sensors is modelled.
- Configuration defaults (the `config.get(..., default)` and `or DEFAULT` fallbacks) are resolved before they reach the model. They appear as the fields of `Config`, `Settings` and `Limits`.
- The below-minimum cycle limit is the parameter `Limits.cyclesToZero`. The constant of the source is `BelowMinCyclesToZero`.
- Two branches of the source are left out:
  - the second generation's `real_power is None` branch (lines 639-641): the real power is only missing when the smoothed grid power is, and that is handled before;
  - the first generation's `if not active_batteries` check (lines 211-213): the active list is non-empty by then.
- Duplicate battery ids in the configuration are not excluded, since the configuration flow does not reject them. The real power counts a repeated battery once, as the dict of readings does. Staging, ranking and the command loop visit every list entry, as the source's loops do. Lemmas about ids bound multiplicities rather than assuming uniqueness.
- The configuration UI, the switch and sensor entities and the integration set-up are not part of this model.
