# Circadian Lighting — a Dafny model

This project models the core of the Circadian Lighting integration for Home
Assistant. It has two parts.

- **The value engine (`CircadianLighting`).** It computes one signed
  "circadian percent" from the sun events around `now`. The percent is +100
  at solar noon and -100 at solar midnight, and it follows a two-phase
  parabola in between. The engine turns the percent into a colour
  temperature in Kelvin, then derives RGB, xy and hue/saturation from it. It
  stores these values and notifies its listeners.
- **The switch (`CircadianSwitch`).** It reads the engine's values and
  decides the brightness: the maximum by day, a linear ramp at night, and a
  fixed value in sleep mode. It gates every adjustment on its own on/off
  state and on an optional disable entity. It then walks its light list
  and sends one `light.turn_on` call per entry of the list and per group
  that lists that light, so a light listed in two groups appears twice in
  the list and gets each of its group calls twice.

The Dafny modules follow the program's structure:

| module | file | models |
|---|---|---|
| `Wrappers` | `wrappers.dfy` | `Option` and `Result` |
| `SunEvents` | `sun_events.dfy` | the four sun events of one date: almanac or manual times, then the offsets |
| `EventWindow` | `event_window.dfy` | three days of events, sorted, bisected at `now`, and the four around it kept as a map |
| `Interpolation` | `interpolation.dfy` | the two-phase parabola giving the percent, and percent to Kelvin |
| `Color` | `color.dfy` | colour values, and the conversions as uninterpreted functions |
| `Engine` | `engine.dfy` | the `CircadianLighting` class: the init and update field sequences and the notification |
| `ManualSchedule` | `manual_schedule.dfy` | with manual sunrise and sunset, the sorted events always follow the daily cycle, so the update never fails |
| `Switch` | `switch.dfy` | the `CircadianSwitch` class and its decision rules |

Modelling choices, all stated in the code:

- **Timestamps** are POSIX seconds as `real`. A manual sunrise or sunset is a
  time of day in seconds. The current time is a UTC datetime, and a
  `datetime.replace(hour=…)` on it sets that time of day in UTC, so it
  becomes `DayStart(date) + seconds`. `DayStart` is the start of the UTC day.
- **The almanac** (the astronomical library) is a function parameter. It
  maps a date to its four events.
- **The colour conversions** (Kelvin→RGB, RGB→xy, xy→hs and Kelvin→mired)
  are functions held in a `ColorSpace` value.
- **Python behaviour is written out where it matters:**
  - `bisect.bisect` is bisect-right (`InsertionPoint`, `BisectRight`);
  - a list slice clamps its bounds and counts negative bounds from the end
    (`PySlice`);
  - `sorted` is stable (`SortByTs`, an insertion sort; `SortIsStable`);
  - `dict(...)` over a list of pairs keeps each key's last value (`ToMap`);
  - `int()` on a float truncates toward zero (`Trunc`).
- **Exceptions become `Result` errors:**
  - a missing key in the event map is a `KeyError`;
  - an unknown sleep or disable entity is an `AttributeError` on `None`;
  - sleep mode without a sleep colour temperature is a `TypeError`.

  `CalcPercent` states which missing key it reports, in the order the
  source looks the keys up. The switch's errors name the unknown entity.
- **Notifications and service calls are recorded as values.** An engine
  notification is the `Snapshot` listeners read. A `light.turn_on` call is a
  `ServiceCall` record.
- **The switch reads the engine's data as an input.** Its `cl.data` is an
  `Option<EngineData>` holding percent, colortemp and transition. The
  platform's entity states are a map from entity id to state string.

## Model

| member | source | states |
|---|---|---|
| SunEvents.DayStart | custom_components/circadian_lighting/__init__.py:189-196 | the UTC day start that a manual time is replaced into is at most `t` and less than a day before it |
| SunEvents.DayStartNextDay | custom_components/circadian_lighting/__init__.py:203 | one `timedelta(days=1)` later lands on the next day's start, exactly one day on |
| SunEvents.SameDay | custom_components/circadian_lighting/__init__.py:189-196 | two instants share a day start exactly when the second lies within the first one's UTC day |
| SunEvents.ReplaceTime | custom_components/circadian_lighting/__init__.py:189-196 | replacing the time of day with `tod` (within one day) keeps the date's day and puts the result exactly `tod` into it |
| SunEvents.RawSunEvents | custom_components/circadian_lighting/__init__.py:198-235 | sunrise and sunset are the manual times on the date where configured and the almanac's otherwise; without both manual times noon and midnight are the almanac's; with both, noon is halfway between sunrise and sunset |
| SunEvents.GetSunEvents | custom_components/circadian_lighting/__init__.py:198-251 | the events of a date: noon and midnight as computed, sunrise and sunset moved by exactly their offsets (or not at all) |
| SunEvents.DayEventList | custom_components/circadian_lighting/__init__.py:242-251 | the event dictionary yields four pairs, one per kind, in the order sunrise, sunset, noon, midnight |
| SunEvents.OffsetsShiftOnlySunriseSunset | custom_components/circadian_lighting/__init__.py:198-240 | the offsets move sunrise and sunset by exactly the configured amounts and leave noon and midnight as they would be without offsets |
| SunEvents.ManualNoonIsMidpoint | custom_components/circadian_lighting/__init__.py:199-202 | in manual mode sunrise and sunset are the manual times on the date, and solar noon is exactly halfway between them |
| SunEvents.ManualMidnightIsMidpoint | custom_components/circadian_lighting/__init__.py:199-203 | in manual mode solar midnight is exactly halfway between sunset and the next day's sunrise, across the day boundary |
| SunEvents.ManualEventsInterleave | custom_components/circadian_lighting/__init__.py:199-203 | with manual sunrise before sunset within one day, the events run sunrise < noon < sunset < midnight < next sunrise < next noon |
| SunEvents.ManualSevenToNineteen | custom_components/circadian_lighting/__init__.py:199-203 | for manual times 07:00 and 19:00 solar noon is 13:00 and solar midnight is 01:00 of the next day |
| EventWindow.InsertByTs | custom_components/circadian_lighting/__init__.py:258 | one insertion step of the sort adds one element and keeps the multiset otherwise unchanged |
| EventWindow.InsertKeepsSorted | custom_components/circadian_lighting/__init__.py:258 | inserting into a list sorted by timestamp keeps it sorted |
| EventWindow.SortByTs | custom_components/circadian_lighting/__init__.py:258 | sorting keeps the length |
| EventWindow.SortByTsSpec | custom_components/circadian_lighting/__init__.py:258 | the sorted list is a permutation of the events and is ordered by timestamp |
| EventWindow.InsertAtTime | custom_components/circadian_lighting/__init__.py:258 | an inserted entry goes ahead of the entries sharing its timestamp and leaves their order alone |
| EventWindow.SortIsStable | custom_components/circadian_lighting/__init__.py:258 | the sort is stable: for every timestamp, the entries stamped with it appear in the output in their input order |
| EventWindow.SortedStamps | custom_components/circadian_lighting/__init__.py:259 | the list of timestamps taken from the sorted events is nondecreasing |
| EventWindow.InsertionPoint | custom_components/circadian_lighting/__init__.py:259 | bisect-right: every timestamp before the index is at most `now`, and the one at the index is greater |
| EventWindow.BisectRight | custom_components/circadian_lighting/__init__.py:259 | the binary search on a nondecreasing list splits it into entries at most `x` and entries above `x`, at the insertion point |
| EventWindow.PySlice | custom_components/circadian_lighting/__init__.py:260 | Python slicing: with bounds inside the list it is the plain subrange, it is never longer than `stop - start`, and it holds only elements of the list |
| EventWindow.ToMap | custom_components/circadian_lighting/__init__.py:260 | `dict` of no pairs is empty, and the last pair's kind maps to the last pair's timestamp |
| EventWindow.ToMapSpec | custom_components/circadian_lighting/__init__.py:260 | `dict` of the pairs has exactly the kinds present as keys, at most one entry per pair, and the last pair of each kind wins |
| EventWindow.CollectedEvents | custom_components/circadian_lighting/__init__.py:254-257 | after each of the three days four more events have been collected |
| EventWindow.AllEvents | custom_components/circadian_lighting/__init__.py:254-257 | yesterday, today and tomorrow give twelve events |
| EventWindow.RelevantEvents | custom_components/circadian_lighting/__init__.py:253-260 | the loop, sort, bisect and slice compute the window of the reference definition, a map with at most four entries |
| EventWindow.SelectWindow | custom_components/circadian_lighting/__init__.py:258-260 | sorting, bisecting and slicing a list of events gives the map of the selected events, with at most four entries |
| EventWindow.SelectionShape | custom_components/circadian_lighting/__init__.py:258-260 | the selected entries are at most four, ordered by timestamp, and each is one of the collected events |
| EventWindow.WindowBracketsNow | custom_components/circadian_lighting/__init__.py:258-260 | when `2 <= idx <= len-2` exactly four entries are selected; the first two are at or before `now`, the last two after it, and they are the nearest such events |
| EventWindow.EventAtNowIsSelected | custom_components/circadian_lighting/__init__.py:259-260 | an event exactly at `now` is the second selected entry, because bisect-right places it before the split |
| EventWindow.CyclicWindowIsComplete | custom_components/circadian_lighting/__init__.py:260 | four selected events in daily-cycle order give a map with all four kinds, each with its own timestamp |
| Interpolation.Parabola | custom_components/circadian_lighting/__init__.py:298-300 | the parabola through the vertex `(h, k)` and the crossing `(x, 0)`: it is `k` at `h` and 0 at `x` |
| Interpolation.ParabolaBetween | custom_components/circadian_lighting/__init__.py:298-300 | between the crossing and the vertex the value is in (0, k] for a positive `k` and in [k, 0) for a negative one, and it equals `k` only at the vertex |
| Interpolation.ParabolaMonotone | custom_components/circadian_lighting/__init__.py:298-300 | between crossing and vertex the value moves strictly towards `k` as time approaches the vertex |
| Interpolation.CalcPercent | custom_components/circadian_lighting/__init__.py:262-301 | the percent lies in [-100, 100]; a `KeyError` names a key missing from the window, and it is the first lookup that fails in the source's order (sunrise, then sunset, then noon or midnight for the phase `now` is in); a window holding all four kinds never fails |
| Interpolation.DaytimePercent | custom_components/circadian_lighting/__init__.py:273-281 | strictly between sunrise and sunset the percent is in (0, 100], and it is 100 exactly at solar noon |
| Interpolation.NighttimePercent | custom_components/circadian_lighting/__init__.py:284-292 | strictly between sunset and sunrise the percent is in [-100, 0), and it is -100 exactly at solar midnight |
| Interpolation.OutsidePhasesPercent | custom_components/circadian_lighting/__init__.py:294-296 | outside both open phases, for example exactly at sunrise or sunset, the percent is 0 |
| Interpolation.RisesTowardsNoon | custom_components/circadian_lighting/__init__.py:273-281 | from sunrise to solar noon the percent rises strictly |
| Interpolation.FallsTowardsSunset | custom_components/circadian_lighting/__init__.py:273-281 | from solar noon to sunset the percent falls strictly |
| Interpolation.FallsTowardsMidnight | custom_components/circadian_lighting/__init__.py:284-292 | from sunset to solar midnight the percent falls strictly |
| Interpolation.RisesTowardsSunrise | custom_components/circadian_lighting/__init__.py:284-292 | from solar midnight to sunrise the percent rises strictly |
| Interpolation.ColorTemp | custom_components/circadian_lighting/__init__.py:303-309 | the minimum for percent <= 0, the maximum at 100, within [min, max] for percent <= 100, and above the minimum for a positive percent |
| Interpolation.ColorTempLinear | custom_components/circadian_lighting/__init__.py:304-307 | for positive percents the colour temperature is linear, with slope (max - min) / 100 |
| Interpolation.ColorTempMonotone | custom_components/circadian_lighting/__init__.py:303-309 | a higher percent never gives a lower colour temperature |
| Engine.Refresh | custom_components/circadian_lighting/__init__.py:322-328 | an update succeeds exactly when the percent can be computed; the stored colour temperature is the percent's, the colours are derived from it, and it lies in [min, max] when min <= max |
| Engine.RefreshSucceedsOnCyclicWindow | custom_components/circadian_lighting/__init__.py:260-301 | when the selected events follow the daily cycle the update cannot raise |
| ManualSchedule.ManualDay | custom_components/circadian_lighting/__init__.py:198-235 | with manual times and no offsets, a date's sunrise and sunset sit at those times of its UTC day, its events run sunrise, noon, sunset, midnight, and the next date's sunrise comes after that midnight |
| ManualSchedule.SortedIsChronological | custom_components/circadian_lighting/__init__.py:254-258 | with manual times and no offsets, sorting the three dates' events gives them day by day in the order sunrise, noon, sunset, midnight |
| ManualSchedule.SortedIsUnique | custom_components/circadian_lighting/__init__.py:258 | a timestamp-sorted permutation of a strictly increasing list is that list, so the sort's result is determined |
| ManualSchedule.NowIndexRange | custom_components/circadian_lighting/__init__.py:259 | with manual times, the bisect position of `now` lies between yesterday's sunset and tomorrow's sunrise, so two events lie on each side of it |
| ManualSchedule.SelectionFollowsCycle | custom_components/circadian_lighting/__init__.py:254-260 | with manual times, the four selected events follow the daily cycle |
| ManualSchedule.ManualModeNeverFails | custom_components/circadian_lighting/__init__.py:198-301 | with manual sunrise before sunset within one day and no offsets, the event window at any `now` holds all four kinds and the update succeeds |
| Engine.RefreshAtSolarNoon | custom_components/circadian_lighting/__init__.py:273-309 | at solar noon during the day the engine holds 100 percent and the maximum colour temperature |
| Engine.RefreshAtNight | custom_components/circadian_lighting/__init__.py:284-309 | at night the percent is negative and the colour temperature is the minimum |
| Engine.RefreshInDaytime | custom_components/circadian_lighting/__init__.py:273-309 | during the day the percent is positive and the colour temperature is above the minimum and at most the maximum |
| Engine.CircadianLighting.constructor | custom_components/circadian_lighting/__init__.py:133-157 | a new engine holds its settings, has stored nothing and has notified nobody |
| Engine.CircadianLighting.CalcPercentAt | custom_components/circadian_lighting/__init__.py:262-301 | the percent of the event window at `now`, in [-100, 100], or the missing key |
| Engine.CircadianLighting.Init | custom_components/circadian_lighting/__init__.py:159-163 | stores percent, colour temperature, RGB and xy of the reference update, leaves hue/saturation alone and notifies nobody; on an error nothing changes |
| Engine.CircadianLighting.Update | custom_components/circadian_lighting/__init__.py:322-329 | stores all five values of the reference update and then notifies once with them; on an error nothing changes and nobody is notified |
| Switch.Trunc | custom_components/circadian_lighting/switch.py:278-280 | `int()` truncates toward zero: the result is within one of `x`, on the side of zero |
| Switch.ManagedLightsMembership | custom_components/circadian_lighting/switch.py:141-149 | a light is managed exactly when one of the configured groups lists it |
| Switch.ManagedLightsLayout | custom_components/circadian_lighting/switch.py:141-149 | the light list is the ct, rgb, xy and brightness groups concatenated in that order, and a missing group adds nothing |
| Switch.IsSleep | custom_components/circadian_lighting/switch.py:215-216 | not sleeping without a sleep entity; fails exactly when the sleep entity is unknown, naming it; with a known sleep entity, sleeping exactly when its state equals the configured sleep state |
| Switch.CalcCt | custom_components/circadian_lighting/switch.py:218-223 | the mired of the selected colour temperature, failing exactly when that selection fails; the engine's colour temperature when no sleep entity is configured |
| Switch.CalcRgb | custom_components/circadian_lighting/switch.py:225-230 | the RGB of the selected colour temperature, failing exactly when that selection fails; the engine's colour temperature when no sleep entity is configured |
| Switch.CalcXy | custom_components/circadian_lighting/switch.py:232-233 | the engine's xy derivation of the selected colour temperature, failing exactly when that selection fails |
| Switch.CalcHs | custom_components/circadian_lighting/switch.py:235-236 | the engine's hue/saturation derivation of the selected colour temperature, failing exactly when that selection fails |
| Switch.ColorsFollowSleepMode | custom_components/circadian_lighting/switch.py:215-236 | awake, mired, RGB and hs come from the engine's colour temperature; asleep, from the sleep colour temperature; errors where the sleep state or sleep colour temperature is missing |
| Switch.SleepIgnoresEngine | custom_components/circadian_lighting/switch.py:218-230 | in sleep mode the colours do not depend on the engine's data |
| Switch.CalcBrightness | custom_components/circadian_lighting/switch.py:238-249 | `None` when brightness adjustment is disabled; otherwise it fails exactly when the sleep state cannot be read, and awake it always yields a value |
| Switch.NightBrightness | custom_components/circadian_lighting/switch.py:249 | the night ramp gives the minimum at -100 percent and the maximum at 0 |
| Switch.NightBrightnessMonotone | custom_components/circadian_lighting/switch.py:249 | the night ramp never decreases as the percent rises |
| Switch.AwakeBrightness | custom_components/circadian_lighting/switch.py:246-249 | awake, the brightness is the maximum for percent >= 0, the minimum at -100, and always within [min, max] |
| Switch.AwakeBrightnessMonotone | custom_components/circadian_lighting/switch.py:246-249 | awake, a higher percent never gives a dimmer light, across the change of rule at 0 too |
| Switch.SleepBrightness | custom_components/circadian_lighting/switch.py:242-244 | asleep, the brightness is the sleep brightness whatever the percent |
| Switch.ServiceBrightness | custom_components/circadian_lighting/switch.py:278 | the service brightness is present exactly when the brightness attribute is |
| Switch.ServiceBrightnessRange | custom_components/circadian_lighting/switch.py:278 | a brightness in [0, 100] scales to 0..254, with 0 at 0 and 254 at 100 |
| Switch.ServiceBrightnessMonotone | custom_components/circadian_lighting/switch.py:278 | the scaling never turns a higher brightness into a lower one |
| Switch.ShouldAdjust | custom_components/circadian_lighting/switch.py:260-271 | the gate opens only for a switch that is on and has engine data, and fails only on an unknown disable entity, naming it |
| Switch.ShouldAdjustIff | custom_components/circadian_lighting/switch.py:260-271 | the gate opens exactly when the switch is on, engine data is present and the disable entity is absent or not in its disable state; it fails exactly when the disable entity is unknown |
| Switch.PlanFor | custom_components/circadian_lighting/switch.py:275-281 | the service data of an adjustment: the scaled brightness; the given transition, else the engine's, else none; the truncated mired of `calc_ct`, the truncated channels of `calc_rgb` and the xy of `calc_xy`, each exactly for a configured group; failing exactly when a colour group is configured and the colour temperature cannot be selected, with that error |
| Switch.LightCalls | custom_components/circadian_lighting/switch.py:284-333 | an on light gets one call per group that lists it and a light that is off none; every call targets the light with the planned brightness and transition |
| Switch.CallsFor | custom_components/circadian_lighting/switch.py:283-333 | the loop over the list sends at most four calls per entry |
| Switch.Adjustment | custom_components/circadian_lighting/switch.py:273-333 | a closed gate sends nothing; any call means the switch is on, has data and is not disabled, and targets a listed light that is on; a failure comes from an unknown disable entity or an unselectable colour temperature |
| Switch.CallsReachOnlyOnLights | custom_components/circadian_lighting/switch.py:283-333 | every call of an adjustment targets a light of the list that is on, with the planned brightness and transition |
| Switch.GroupMemberIsAdjusted | custom_components/circadian_lighting/switch.py:283-333 | a light of the list that is on gets each of its groups' calls, each with that group's colour, and xy lights also get the brightness as white value |
| Switch.OnLightGetsSelectedColour | custom_components/circadian_lighting/switch.py:218-333 | an enabled adjustment succeeds, and an on light of the list gets for each of its colour groups a call with the mired, RGB or xy of the selected colour temperature, the scaled brightness and the transition in force |
| Switch.NoCallsWhenOff | custom_components/circadian_lighting/switch.py:260-265 | a switch that is not on, or has no engine data, sends nothing and cannot fail |
| Switch.NoCallsWhenDisabled | custom_components/circadian_lighting/switch.py:266-268 | the disable entity in its disable state holds every light back |
| Switch.UpdatedAttributes | custom_components/circadian_lighting/switch.py:251-256 | without engine data the attributes stay; with it, the update succeeds exactly when hs and brightness both compute, and then stores them |
| Switch.UpdateFailsBeforeStoring | custom_components/circadian_lighting/switch.py:251-256 | the brightness can fail only where the colour already has, so a failing update fails at its first step |
| Switch.CircadianSwitch.constructor | custom_components/circadian_lighting/switch.py:111-149 | a new switch has no state, empty colour and attributes, and the managed light list |
| Switch.CircadianSwitch.TurnOn | custom_components/circadian_lighting/switch.py:198-205 | the switch is on, and the update runs with the configuration key `initial_transition` as its transition |
| Switch.CircadianSwitch.TurnOff | custom_components/circadian_lighting/switch.py:207-213 | the switch is off, and the colour and both attributes are cleared |
| Switch.CircadianSwitch.UpdateSwitch | custom_components/circadian_lighting/switch.py:251-258 | with engine data the colour and attributes are recomputed, then the lights are adjusted; a failing colour leaves everything as it was |
| Switch.CircadianSwitch.AdjustLights | custom_components/circadian_lighting/switch.py:273-333 | the loop over the lights sends exactly the calls of the reference adjustment, and changes nothing |

## Left out

- ManualSchedule.ManualModeNeverFails: covers manual times with no offsets and sunrise before sunset within one day. Offsets, or the almanac, can move events across each other, and then this model gives no such guarantee. The almanac is an arbitrary parameter, so its order is not known.
- The astronomical library (astral) and its v1/v2 fallbacks are not modelled. The four events of a date come from the almanac parameter.
- Time zones are left out. With manual times, `datetime.replace` works on the UTC datetime, so a manual time is a UTC time of day. The conversion back to a timestamp is the identity on POSIX seconds.
- The colour conversions of the host platform are uninterpreted functions. Their numerics are not modelled.
- Floating point is left out: all arithmetic is on exact reals. Rounding in the parabola, the ramps and the scaling is not captured.
- Scheduling and dispatch are not modelled: `async_track_*`, `dispatcher_connect`, the executor jobs and `async`/`await`. The current time is the parameter `now`, and an update is a method call. The timers that `_async_init` registers are not modelled. A notification is a recorded `Snapshot`.
- The Home Assistant plumbing is not modelled: voluptuous schemas, `setup_platform`, `RestoreEntity` and `async_added_to_hass`, and the `entity_id`, `name` and `icon` properties. The service calls of `adjust_lights` are returned as `ServiceCall` values instead of being sent.
- The schema's bounds on brightness and colour temperature are not enforced on the configuration. Lemmas that need `min <= max` require it.
- The state-change callbacks `light_state_changed`, `sleep_state_changed` and `disable_state_changed` are not modelled. They swallow every exception, and they only re-run `adjust_lights` and `update_switch`, which are modelled.
- `sensor.py` is not part of this model. It drives a Hue gateway over HTTP.
- The switch reads `cl.data`, which the engine module shown does not define. Here it is an input of type `Option<EngineData>`, not a link to the engine object.
- `turn_on` passes the configuration key `initial_transition` itself as the transition, not its configured value. The model keeps this as written (`TransitionKey`).
- Switch.CircadianSwitch.UpdateSwitch: the ensures does not give the field values after a failing brightness step. `UpdateFailsBeforeStoring` shows that this step cannot fail once the colour has succeeded.
