# Solar router decision logic in Dafny

This project models the decision core of a Home Assistant integration. The
integration diverts surplus solar power into an electric water heater. It has
three parts:

- **The water-tank model** (`WaterTankModel`). A tank without a sensor gets a
  linear temperature estimate. Heating raises it, heat loss and hot-water draws
  lower it, and daily counters record heating sessions, time and energy. The
  model also answers queries: time to target, time to cold, showers left,
  energy content and an hourly forecast.
- **The rule engine** (`RuleEngine`). Rules have twelve kinds of condition over
  a context map (battery, solar, grid, tank, time windows, daily heating time).
  The engine sorts rules by descending priority with a stable sort. The first
  enabled rule whose conditions all hold decides, and the default answer is
  "off".
- **The coordinator's decision cycle** (`SolarRouterCoordinator`). Each polling
  tick reads the sensors and advances the tank by the time since the previous
  successful tick. It builds the rule context and, in auto mode, asks the
  engine whether to heat. It commands the heater only when the answer differs
  from the heater's state, fires notifications, exposes computed values and
  saves a snapshot after more than five minutes. The explicit commands (auto
  mode, off-peak fallback, forced heating, stop, calibration, usage events)
  and the snapshot load are modelled too.

Files:

- `Values.dfy`: Python values as they appear in the context, rule and
  storage dictionaries; `dict.get`; truthiness; and Python's ordering
  comparisons, including the `TypeError` between a string and a number.
- `Constants.dfy`: the enumerations and defaults of `const.py`.
- `Parsing.dfy`: `int()`/`float()` on strings, `str.split`, `_parse_time`
  as a `Result`, and `_time_in_range`.
- `WaterTank.dfy`: the tank, as pure specification functions and a `Tank`
  class whose methods update `state` in place.
- `Rules.dfy`: conditions, rules, the stable priority sort, first-match
  evaluation, serialisation, and a `RuleEngine` class.
- `Coordinator.dfy`: sensor reading, context, reaction, computed values, the
  snapshot, and an `Orchestrator` class with the tick and the commands.

Arithmetic is on exact reals. Durations are seconds. Instants are abstract
`Timestamp` reals that the caller passes in. The local time of day is seconds
since midnight, also passed in.

## Model

| member | source | states |
|---|---|---|
| Values.Get | custom_components/solar_router/rule_engine.py:42-86 | `context.get(key, default)` is the stored value when the key is present and the default otherwise |
| Values.Compare | custom_components/solar_router/rule_engine.py:42-81 | ordering two numbers never fails; ordering a number against a non-number raises TypeError, and TypeError is the only error |
| Values.FiniteComparisons | custom_components/solar_router/rule_engine.py:42-81 | on two finite numbers `>=`, `<=`, `<`, `>` agree with the real comparisons |
| Values.InfinityAboveFinite | custom_components/solar_router/rule_engine.py:51 | the `float("inf")` default is above every finite threshold, so `inf <= v` is false |
| Values.MixedComparisonRaises | custom_components/solar_router/rule_engine.py:42-93 | a string compared with a number raises TypeError in either order |
| Values.CompareStringsEqual | custom_components/solar_router/rule_engine.py:108-109 | lexicographic string order says Equal exactly for equal strings |
| Constants.HeatingModeOf | custom_components/solar_router/const.py:71-78 | `HeatingMode(v)` succeeds exactly on the five mode texts and returns that mode; otherwise ValueError |
| Constants.ConditionKindOf | custom_components/solar_router/const.py:81-95 | `RuleConditionType(v)` succeeds exactly on the twelve kind texts; otherwise ValueError |
| Constants.ActionKindOf | custom_components/solar_router/const.py:98-103 | `RuleActionType(v)` succeeds exactly on the three action texts; otherwise ValueError |
| Parsing.TrimLeftRemovesSpace | custom_components/solar_router/rule_engine.py:103 | the left strip of `int()` leaves a suffix that starts with no whitespace, and only whitespace was removed |
| Parsing.TrimRightRemovesSpace | custom_components/solar_router/rule_engine.py:103 | the right strip of `int()` leaves a prefix that ends with no whitespace, and only whitespace was removed |
| Parsing.StripUnspaced | custom_components/solar_router/rule_engine.py:103 | stripping a string without whitespace gives it back |
| Parsing.TwoDigitsParse | custom_components/solar_router/rule_engine.py:103 | `int()` of two digits is their decimal value |
| Parsing.Split | custom_components/solar_router/rule_engine.py:102 | `split` always gives at least one part |
| Parsing.SplitJoin | custom_components/solar_router/rule_engine.py:102 | joining the parts of `split` with the separator gives back the string |
| Parsing.SplitWithoutSeparator | custom_components/solar_router/rule_engine.py:102 | a string without the separator splits into itself alone |
| Parsing.SplitAtSeparator | custom_components/solar_router/rule_engine.py:102 | `a + ":" + b` without other separators splits into `[a, b]` |
| Parsing.ParseTime | custom_components/solar_router/rule_engine.py:97-103 | a `time` passes through; a non-string non-time raises AttributeError and only it does; errors are ValueError, IndexError, AttributeError or OverflowError |
| Parsing.SplitParts | custom_components/solar_router/rule_engine.py:102-103 | `parts[0]` is the text before the first ':', `parts[1]` exists exactly when there is a ':' and is the text up to the next one |
| Parsing.ParseClockText | custom_components/solar_router/rule_engine.py:97-103 | every zero-padded "HH:MM" text parses to that hour and minute |
| Parsing.ParseTimeWithoutColon | custom_components/solar_router/rule_engine.py:102-103 | a numeric text with no ':' raises IndexError at `parts[1]` |
| Parsing.ParseTimeBadFirstPart | custom_components/solar_router/rule_engine.py:103 | a text whose first part is not an integer raises ValueError |
| Parsing.ParseTimeOverflow | custom_components/solar_router/rule_engine.py:103 | once both parts parse as `int` (at most 4300 digits each), `time()` raises OverflowError exactly when the hour or the minute is outside the C `int` range |
| Parsing.HugeHourOverflows | custom_components/solar_router/rule_engine.py:103 | "3000000000:00" raises OverflowError, not ValueError |
| Parsing.LongHourIsValueError | custom_components/solar_router/rule_engine.py:103 | an hour of more than 4300 digits (zeros included) raises ValueError in `int()`, before `time()` is reached |
| Parsing.DigitsAfterValue | custom_components/solar_router/rule_engine.py:103 | digits after a digit run of `int()` shift its value by ten per digit and add their decimal value |
| Parsing.DigitPartValue | custom_components/solar_router/rule_engine.py:103 | a non-empty digit string is a digit part worth its decimal value |
| Parsing.ParseIntDigits | custom_components/solar_router/rule_engine.py:103 | `int()` of a digit string is its decimal value, and with a leading '-' its negation, exactly when it has at most 4300 digits; a longer one raises ValueError |
| Parsing.ParseFloatPoint | custom_components/solar_router/coordinator.py:259 | `float()` of "digits.digits" is the whole part plus the fraction digits' value over ten to their count |
| Parsing.MantissaPoint | custom_components/solar_router/coordinator.py:259 | the mantissa "digits.digits" has that point value |
| Parsing.ParseFloatInteger | custom_components/solar_router/coordinator.py:259 | `float()` of a digit string is its decimal value, whatever its length; `int()` accepts it iff it has at most 4300 digits, and then the two agree |
| Parsing.ParseFloatNegative | custom_components/solar_router/coordinator.py:259 | a leading '-' negates what `float()` gives for an unsigned text, and keeps an unparsable one unparsable |
| Parsing.WrappedRangeIsComplementOfGap | custom_components/solar_router/rule_engine.py:105-112 | with start > end the window holds exactly outside the open gap (end, start) |
| Parsing.OvernightWindow | custom_components/solar_router/rule_engine.py:105-112 | 22:00-06:00 holds at 23:30 and 02:00, not at 12:00 |
| WaterTank.DefaultEventVolumes | custom_components/solar_router/water_tank.py:44-47 | the default shower draws 70 L of hot water and the dishes 42 L |
| WaterTank.HeatingRate | custom_components/solar_router/water_tank.py:101-109 | the heating rate times the thermal mass is the wattage |
| WaterTank.HeatingRatePerMinute | custom_components/solar_router/water_tank.py:111-114 | the per-minute rate is 60 times the per-second rate |
| WaterTank.HeatingRatePerHour | custom_components/solar_router/water_tank.py:116-119 | the per-hour rate is 3600 times the per-second rate |
| WaterTank.HeatLoss | custom_components/solar_router/water_tank.py:121-128 | zero at or below ambient; non-negative for non-negative time and rate; above ambient, proportional to the gap over the fixed 35 C reference |
| WaterTank.UsageTempDrop | custom_components/solar_router/water_tank.py:130-144 | a draw of at least the tank volume leaves cold water; otherwise the volume-weighted mix |
| WaterTank.MixedTempBetween | custom_components/solar_router/water_tank.py:137-144 | the mix lies between the cold-water temperature and the old temperature |
| WaterTank.ApplyUsage | custom_components/solar_router/water_tank.py:192-209 | an unknown event leaves the state unchanged; a known one changes only the temperature, to cold water or to the mix |
| WaterTank.ShowerScenario | custom_components/solar_router/water_tank.py:130-144 | a shower in a 200 L tank at 55 C with 15 C cold water leaves 41 C |
| WaterTank.HeatingCappedAtTarget | custom_components/solar_router/water_tank.py:155-165 | heating never ends above the target |
| WaterTank.IdleBounds | custom_components/solar_router/water_tank.py:175-181 | idling never ends below cold water and, from at or above cold water, never ends above where it started |
| WaterTank.IdleAtAmbientKeepsTemp | custom_components/solar_router/water_tank.py:121-128 | at or below ambient an idle tank keeps its temperature |
| WaterTank.IdleZeroElapsedIdempotent | custom_components/solar_router/water_tank.py:175-188 | idling for zero seconds keeps the temperature, and repeating it changes only the update time |
| WaterTank.AdvanceTransitions | custom_components/solar_router/water_tank.py:166-188 | sessions and start time move only on off-to-on, end time only on on-to-off; heating time and energy grow only while heating; flag and update time always set |
| WaterTank.HeatingHourScenario | custom_components/solar_router/water_tank.py:155-173 | an hour of 2400 W heating at the target stays at 55 C and books 2.4 kWh, 3600 s and one session |
| WaterTank.TimeToTarget | custom_components/solar_router/water_tank.py:211-225 | zero at or above target; none iff the net rate is not positive; otherwise the net rate over that time covers the gap |
| WaterTank.TimeToCold | custom_components/solar_router/water_tank.py:227-235 | zero at or below the minimum; otherwise losing at the loss rate for that long reaches the minimum, and it is positive |
| WaterTank.TimeToColdScenario | custom_components/solar_router/water_tank.py:227-235 | 55 C to 40 C at 0.5 C/h takes 30 hours |
| WaterTank.EnergyContent | custom_components/solar_router/water_tank.py:268-275 | non-negative, zero exactly at or below cold water, otherwise thermal mass times the gap in kWh |
| WaterTank.ShowerStepDrop | custom_components/solar_router/water_tank.py:248-263 | each simulated shower above the minimum lowers the temperature by at least a fixed positive amount |
| WaterTank.ShowerBudgetDecreases | custom_components/solar_router/water_tank.py:248-263 | the loop's termination measure drops with each whole shower |
| WaterTank.ShowersFrom | custom_components/solar_router/water_tank.py:237-266 | the count is non-negative and positive exactly above the minimum temperature |
| WaterTank.ShowerLoopStep | custom_components/solar_router/water_tank.py:248-264 | one loop step: below the minimum adds the partial fraction and stops, otherwise adds one and continues |
| WaterTank.ShowersSplit | custom_components/solar_router/water_tank.py:237-266 | the count is a whole number of showers plus a final part in [0, 1) |
| WaterTank.ShowersScenario | custom_components/solar_router/water_tank.py:237-266 | a 200 L tank at 55 C gives 1 + 1/9.1 showers |
| WaterTank.ForecastTemp | custom_components/solar_router/water_tank.py:297-316 | every forecast temperature is at least the cold-water temperature |
| WaterTank.Calibrate | custom_components/solar_router/water_tank.py:283-289 | clamps the temperature to [cold, target + 10]: kept inside the range, the upper bound above it, cold water below it (and cold water whenever the bounds cross); sets the update time, changes nothing else |
| WaterTank.ResetDaily | custom_components/solar_router/water_tank.py:277-281 | zeroes the three daily counters and keeps every other field |
| WaterTank.TankFromValue | custom_components/solar_router/water_tank.py:339-342 | a falsy dictionary (such as `{}`) restores nothing |
| WaterTank.TankRoundTrip | custom_components/solar_router/water_tank.py:326-360 | `from_dict(to_dict(s))` restores every field; an absent heating time keeps the one already loaded |
| WaterTank.TankRoundTripExact | custom_components/solar_router/water_tank.py:326-360 | into a state without heating times the round trip is exact |
| WaterTank.Tank.constructor | custom_components/solar_router/water_tank.py:67-99 | the settings given and the default state |
| WaterTank.Tank.UpdateTemperature | custom_components/solar_router/water_tank.py:146-190 | the new state is the tank advanced by the elapsed time; returns the new temperature |
| WaterTank.Tank.ApplyUsageEvent | custom_components/solar_router/water_tank.py:192-209 | the new state is the draw applied; returns the new temperature |
| WaterTank.Tank.EstimatedShowersAvailable | custom_components/solar_router/water_tank.py:237-266 | the while loop computes the shower count, which is zero exactly at or below the minimum |
| WaterTank.Tank.GetForecast | custom_components/solar_router/water_tank.py:291-324 | n + 1 points for hours 0..n, each the forecast temperature and at least cold water; the state is not changed |
| WaterTank.Tank.ResetDailyStats | custom_components/solar_router/water_tank.py:277-281 | the state is the daily reset of the old one |
| WaterTank.Tank.SetTemperature | custom_components/solar_router/water_tank.py:283-289 | the state is the calibration of the old one |
| WaterTank.Tank.FromDict | custom_components/solar_router/water_tank.py:339-360 | the state is what restoring gives, up to the first error |
| Rules.AbsValue | custom_components/solar_router/rule_engine.py:56 | `abs` negates negative integers and floats |
| Rules.EvalCondition | custom_components/solar_router/rule_engine.py:38-92 | the threshold kinds can fail only with TypeError; any failure is TypeError, ValueError, IndexError, AttributeError or OverflowError |
| Rules.ConditionHolds | custom_components/solar_router/rule_engine.py:38-95 | ValueError and TypeError become `False`; only IndexError, AttributeError or OverflowError from a time window escapes |
| Rules.WindowOverflowEscapes | custom_components/solar_router/rule_engine.py:69-95 | a window bound whose hour overflows is not caught: the OverflowError escapes the condition |
| Rules.LongWindowHourIsFalse | custom_components/solar_router/rule_engine.py:69-95 | a window start whose hour has more than 4300 digits raises ValueError, which is caught: the condition is false |
| Rules.BatteryAndSolarThresholds | custom_components/solar_router/rule_engine.py:41-51 | the battery and solar thresholds compare the reading with `>=` or `<=`; a missing battery reading is 0 (above) or 100 (below), a missing solar reading 0 (above) |
| Rules.TankTempThresholds | custom_components/solar_router/rule_engine.py:63-67 | the tank thresholds compare the reading with `>=` (above) or `<=` (below); a missing reading is 0 for above and 100 for below |
| Rules.DailyHeatingThresholds | custom_components/solar_router/rule_engine.py:75-81 | the daily heating thresholds compare with `<` (below) or `>=` (above); a missing reading is 0 |
| Rules.MissingSolarIsNeverBelow | custom_components/solar_router/rule_engine.py:50-51 | without a solar reading `solar_power_below` never holds |
| Rules.GridConditions | custom_components/solar_router/rule_engine.py:53-61 | export holds iff the reading is negative and its magnitude reaches the value; import iff positive and reaching it |
| Rules.ExportAndImportExclusive | custom_components/solar_router/rule_engine.py:53-61 | export and import never hold together |
| Rules.MistypedThresholdIsFalse | custom_components/solar_router/rule_engine.py:41-95 | a text threshold raises TypeError, which evaluates to `False` |
| Rules.DefaultWindowTimes | custom_components/solar_router/const.py:61-68 | the default off-peak and solar window texts parse to 22:00, 06:00, 10:00 and 17:00 |
| Rules.TimeBetweenWindow | custom_components/solar_router/rule_engine.py:69-73 | `time_between` with two clock texts holds exactly inside that window |
| Rules.ParsedWindow | custom_components/solar_router/rule_engine.py:69-73 | `time_between` with two values that parse holds exactly inside their window |
| Rules.OffpeakBoundsParseDefaults | custom_components/solar_router/rule_engine.py:83-86 | a missing off-peak bound reads as the parsed default text, 22:00 or 06:00 |
| Rules.OffpeakWindow | custom_components/solar_router/rule_engine.py:83-87 | `offpeak_hours` holds exactly inside the window the context gives |
| Rules.OffpeakDefaultWindow | custom_components/solar_router/rule_engine.py:83-87 | without configured hours it is the 22:00-06:00 window |
| Rules.WindowWithoutColonEscapes | custom_components/solar_router/rule_engine.py:93-103 | a numeric start time without ':' raises IndexError, which is not caught |
| Rules.WindowOfNonTextEscapes | custom_components/solar_router/rule_engine.py:93-103 | a boolean start time raises AttributeError, which is not caught |
| Rules.AllHoldMeansEvery | custom_components/solar_router/rule_engine.py:153 | `all` is true iff every condition holds; an error it passes on comes from one of the conditions |
| Rules.RuleMatches | custom_components/solar_router/rule_engine.py:149-153 | false when disabled, true for an enabled rule without conditions |
| Rules.RuleMatchesIff | custom_components/solar_router/rule_engine.py:149-153 | a rule matches iff it is enabled and every condition holds |
| Rules.InsertPermutes | custom_components/solar_router/rule_engine.py:326-328 | inserting adds exactly the new rule |
| Rules.InsertSorted | custom_components/solar_router/rule_engine.py:326-328 | inserting into a priority-ordered list keeps it ordered |
| Rules.SortIsOrderedPermutation | custom_components/solar_router/rule_engine.py:326-328 | the sort gives a descending-priority permutation of its input |
| Rules.SortIsStable | custom_components/solar_router/rule_engine.py:326-328 | rules of equal priority keep their relative order |
| Rules.SortOfSortedIsIdentity | custom_components/solar_router/rule_engine.py:326-328 | sorting an ordered list changes nothing |
| Rules.WithoutName | custom_components/solar_router/rule_engine.py:297-301 | removes every rule with the name and keeps every other; shorter iff the name was there; unchanged when the name is absent |
| Rules.WithoutNameAppend | custom_components/solar_router/rule_engine.py:299 | the filter keeps the order of the rules it keeps: filtering a concatenation filters each part in turn |
| Rules.FirstIndex | custom_components/solar_router/rule_engine.py:303-324 | the position of the first rule with the name, or the length if there is none |
| Rules.Lookup | custom_components/solar_router/rule_engine.py:319-324 | found iff a rule has the name; the result has that name and is in the list |
| Rules.SetEnabledChangesOnlyFlag | custom_components/solar_router/rule_engine.py:303-317 | only the first named rule's `enabled` flag changes, to the new value; without the name nothing changes |
| Rules.UpsertProperties | custom_components/solar_router/rule_engine.py:290-295 | after adding, the rule is there once, no other rule has its name, other rules are kept, the list is ordered |
| Rules.FirstMatch | custom_components/solar_router/rule_engine.py:330-357 | at most one triggered name, and no actions without one |
| Rules.FirstMatchIsFirst | custom_components/solar_router/rule_engine.py:341-357 | the triggered rule matches and no earlier rule does; no name means no rule matches; an error comes from a rule after only misses |
| Rules.HighestPriorityWins | custom_components/solar_router/rule_engine.py:341-357 | in an ordered list the decisive rule has at least the priority of any matching rule |
| Rules.PriorityNinetyBeatsSixty | custom_components/solar_router/rule_engine.py:340-351 | with matching rules at 90 and 60, in either order, only the 90 rule triggers |
| Rules.FirstName | custom_components/solar_router/rule_engine.py:352-355 | the first triggered name, or `None` when none triggered |
| Rules.HeatDecision | custom_components/solar_router/rule_engine.py:366-375 | no heater action gives (False, None); otherwise the rule is the first triggered name |
| Rules.HeatDecisionFollowsFirstHeaterAction | custom_components/solar_router/rule_engine.py:368-372 | heat iff the first heater action after mode changes is turn_on |
| Rules.NoRulesNeverHeat | custom_components/solar_router/rule_engine.py:359-375 | with no rules the answer is (False, None) |
| Rules.MatchedRuleDecides | custom_components/solar_router/rule_engine.py:366-375 | a leading turn_on gives (True, name), a leading turn_off (False, name), no heater action (False, None) |
| Rules.DefaultOrder | custom_components/solar_router/rule_engine.py:202-288 | the six default rules sort to emergency, battery protection, tank full, solar excess, grid export, off-peak |
| Rules.LeadingMatchDecides | custom_components/solar_router/rule_engine.py:342-350 | a matching first rule decides with its own actions |
| Rules.SecondMatchDecides | custom_components/solar_router/rule_engine.py:342-350 | when the first rule misses and the second matches, the second decides |
| Rules.LeadingMissDefers | custom_components/solar_router/rule_engine.py:342-350 | a non-matching first rule passes the decision to the rest |
| Rules.EmergencyHeatingWins | custom_components/solar_router/rule_engine.py:251-262 | with the default rules a tank at or below 35 C turns the heater on by emergency heating |
| Rules.EmergencyMissesWarmTank | custom_components/solar_router/rule_engine.py:250-261 | the emergency rule does not match a tank reading above 35 C |
| Rules.BatteryProtectionMatches | custom_components/solar_router/rule_engine.py:276-287 | battery protection matches a battery at or below 40 % with at most 500 W of sun |
| Rules.BatteryProtectionWins | custom_components/solar_router/rule_engine.py:277-288 | above 35 C, with the battery at or below 40 % and at most 500 W of sun, battery protection turns it off |
| Rules.KeyedItems | custom_components/solar_router/rule_engine.py:184-186 | a list gives its items; an empty text or dict gives no items; any other value raises TypeError (a non-empty text or dict yields texts, which cannot be indexed by key) |
| Rules.ConditionFromValue | custom_components/solar_router/rule_engine.py:179-183 | a stored condition fails only with TypeError, KeyError or ValueError |
| Rules.ActionFromValue | custom_components/solar_router/rule_engine.py:129-135 | a stored action fails only with TypeError, KeyError or ValueError |
| Rules.RuleFromValue | custom_components/solar_router/rule_engine.py:173-190 | a non-dictionary raises TypeError, a missing name KeyError; the restored name is the stored one |
| Rules.ConditionsRoundTrip | custom_components/solar_router/rule_engine.py:155-184 | stored conditions read back as the same conditions |
| Rules.ActionsRoundTrip | custom_components/solar_router/rule_engine.py:122-135 | stored actions read back as the same actions |
| Rules.RuleRoundTrip | custom_components/solar_router/rule_engine.py:155-190 | `Rule.from_dict(rule.to_dict()) == rule` |
| Rules.RulesRoundTrip | custom_components/solar_router/rule_engine.py:382-388 | a stored rule list reads back as the same list |
| Rules.EngineRoundTrip | custom_components/solar_router/rule_engine.py:382-389 | restoring the engine gives the stable priority sort of the saved list |
| Rules.RuleEngine.constructor | custom_components/solar_router/rule_engine.py:196-200 | the six default rules in creation order, unsorted, and no triggered rule |
| Rules.RuleEngine.AddRule | custom_components/solar_router/rule_engine.py:290-295 | the rules become the upsert of the old ones |
| Rules.RuleEngine.RemoveRule | custom_components/solar_router/rule_engine.py:297-301 | returns whether the name was there; afterwards no rule has it; the list is not re-sorted |
| Rules.RuleEngine.SetRuleEnabled | custom_components/solar_router/rule_engine.py:303-317 | the loop sets the flag of the first named rule and reports whether it found one |
| Rules.RuleEngine.EnableRule | custom_components/solar_router/rule_engine.py:303-309 | enables the named rule; returns whether it exists |
| Rules.RuleEngine.DisableRule | custom_components/solar_router/rule_engine.py:311-317 | disables the named rule; returns whether it exists |
| Rules.RuleEngine.GetRule | custom_components/solar_router/rule_engine.py:319-324 | the loop finds the first rule with the name, or none |
| Rules.RuleEngine.Evaluate | custom_components/solar_router/rule_engine.py:330-357 | sorts the rules, returns the first match and records its name, or `None` when nothing matched |
| Rules.RuleEngine.ShouldHeat | custom_components/solar_router/rule_engine.py:359-375 | the answer is the heat decision of the first match over the sorted rules |
| Rules.RuleEngine.FromDict | custom_components/solar_router/rule_engine.py:386-389 | the rules become the stored ones, sorted; on an error they are left as they were |
| Coordinator.EntityValue | custom_components/solar_router/coordinator.py:253-261 | the default for a missing, unavailable, unknown or unparsable state; otherwise the parsed number |
| Coordinator.ReadingOf | custom_components/solar_router/coordinator.py:216-245 | a sensor has a reading iff its entity is configured; it is then the entity's state through `_get_entity_value` with default 0: 0 for a missing entity, the parsed number for a usable state |
| Coordinator.SensorData | custom_components/solar_router/coordinator.py:216-251 | each of the five numeric sensors has a reading iff configured, equal to its entity's value with default 0; the heater is on iff its switch exists and reads "on" |
| Coordinator.TelemetryData | custom_components/solar_router/coordinator.py:216-251 | the data map has a key exactly for each configured sensor, holding its reading as a float, and "heater_on" exactly when a switch is configured; no other keys |
| Coordinator.HeaterOn | custom_components/solar_router/coordinator.py:163 | `data.get("heater_on", False)` is true iff the switch reads on |
| Coordinator.BuildContext | custom_components/solar_router/coordinator.py:263-275 | the nine context keys; tank temperature is the estimate; daily heating is seconds over 60; the off-peak window is the configured one |
| Coordinator.ContextReadings | custom_components/solar_router/coordinator.py:265-269 | each telemetry key reads its value or integer 0 |
| Coordinator.MissingReadingsAreZero | custom_components/solar_router/coordinator.py:263-275 | a missing solar or battery sensor reads 0 in conditions, not the condition's own default |
| Coordinator.ContextTankTemp | custom_components/solar_router/coordinator.py:270 | tank conditions compare the model's estimate |
| Coordinator.NoBatteryOrSolarSensorStopsHeating | custom_components/solar_router/coordinator.py:263-275 | without battery or solar sensors and above 35 C the default rules say off, by battery protection |
| Coordinator.React | custom_components/solar_router/coordinator.py:171-195 | a command iff the decision differs from the heater; started iff on, stopped iff off; rule_triggered iff a command and a non-empty rule name |
| Coordinator.SteadyDecisionIsSilent | custom_components/solar_router/coordinator.py:176 | a heater already where the decision wants it gets no command and no event |
| Coordinator.NoRuleStopsRunningHeater | custom_components/solar_router/coordinator.py:171-189 | with no rules a running heater is stopped without a rule name |
| Coordinator.Elapsed | custom_components/solar_router/coordinator.py:159-161 | zero on the first tick, otherwise the time since the last successful tick |
| Coordinator.SaveOnlyAfterFiveMinutes | custom_components/solar_router/coordinator.py:207-208 | a tick saves iff its own elapsed time exceeds 300 s; the first tick never does |
| Coordinator.ComputedValues | custom_components/solar_router/coordinator.py:277-296 | energy, showers and time to cold are non-negative and positive exactly above their thresholds; a shown time to target is that time in minutes |
| Coordinator.TimeToTargetShownOnlyBelowTarget | custom_components/solar_router/coordinator.py:277-289 | at or above target no time to target is shown, because a zero duration is falsy; below it with a positive net rate one is |
| Coordinator.ComputedEntries | custom_components/solar_router/coordinator.py:281-296 | the computed map has exactly the thirteen keys |
| Coordinator.ComputedNumberEntries | custom_components/solar_router/coordinator.py:283-290 | each numeric entry holds its computed value; "time_to_target_minutes" is `None` when there is no time to target |
| Coordinator.ComputedStatusEntries | custom_components/solar_router/coordinator.py:291-295 | "heating_mode" holds the mode's text, the switches and "is_heating" their flags, "current_rule" the last triggered rule or `None` |
| Coordinator.DecisionEntries | custom_components/solar_router/coordinator.py:167-198 | auto mode writes the decision and the deciding rule's name (`None` without one); otherwise both are `None` |
| Coordinator.TickData | custom_components/solar_router/coordinator.py:153-210 | the returned map holds the sensor keys, the two decision keys and the computed keys |
| Coordinator.TickDataKeepsDecision | custom_components/solar_router/coordinator.py:200-210 | merging the computed values overwrites neither the decision nor the readings |
| Coordinator.SnapshotValue | custom_components/solar_router/coordinator.py:120-129 | the snapshot holds exactly the five saved keys |
| Coordinator.LoadStored | custom_components/solar_router/coordinator.py:131-140 | an empty snapshot changes nothing but sets both flags true; an absent tank, rule list or mode is kept; a stored tank is what the tank loader restores and stored rules are loaded in priority order; after a complete load both flags are the stored ones, default true; a failed load leaves the mode and both flags as they were |
| Coordinator.LoadStoredComplete | custom_components/solar_router/coordinator.py:131-140 | a snapshot whose tank, rules and mode all load gives that tank, the rules in priority order, that mode and the two stored flags, with no error |
| Coordinator.HeatingModeRoundTrip | custom_components/solar_router/coordinator.py:124-137 | a saved mode reads back as itself |
| Coordinator.SnapshotRoundTrip | custom_components/solar_router/coordinator.py:120-140 | loading a snapshot restores the tank, the rules in stable priority order, the mode and both flags |
| Coordinator.Orchestrator.constructor | custom_components/solar_router/coordinator.py:57-84 | a tank with the configured volume, wattage and loss, the default rules, auto mode on, no tick yet |
| Coordinator.Orchestrator.Tick | custom_components/solar_router/coordinator.py:150-214 | advances the tank by the elapsed time; in auto mode decides on the context, records the first triggered rule as the current rule, and reacts, otherwise leaves the heater and engine alone; reports the readings, the decision and the values computed from the new state; a failure records no time; saves the state only after 300 s |
| Coordinator.Orchestrator.LoadStoredData | custom_components/solar_router/coordinator.py:131-140 | the state becomes what loading the snapshot gives; the last triggered rule and the tick bookkeeping are untouched |
| Coordinator.Orchestrator.MidnightReset | custom_components/solar_router/coordinator.py:143-148 | the daily counters are reset and the snapshot saved |
| Coordinator.Orchestrator.SetAutoMode | custom_components/solar_router/coordinator.py:321-325 | sets the auto flag only, and saves |
| Coordinator.Orchestrator.SetOffpeakFallback | custom_components/solar_router/coordinator.py:327-332 | sets the flag and the `enabled` flag of the rule "offpeak_fallback", and saves |
| Coordinator.Orchestrator.ForceHeating | custom_components/solar_router/coordinator.py:334-339 | sets forced mode and commands on; the duration is ignored |
| Coordinator.Orchestrator.StopHeating | custom_components/solar_router/coordinator.py:341-345 | commands off; the mode becomes auto if auto mode is enabled, off otherwise; nothing is saved |
| Coordinator.Orchestrator.SetTankTemperature | custom_components/solar_router/coordinator.py:347-351 | calibrates the tank and saves |
| Coordinator.Orchestrator.ApplyUsageEvent | custom_components/solar_router/coordinator.py:353-357 | applies the draw and saves |
| Coordinator.Orchestrator.TemperatureForecast | custom_components/solar_router/coordinator.py:359-361 | n + 1 forecast points for hours 0..n, each at its hour's time with the forecast temperature, at least cold water |

## Left out

- Home Assistant I/O is not modelled: the `Store` load and save, the event bus, the switch service call, the midnight timer and the `UpdateFailed` wrapping. The tick returns them instead: the heater command, the events, and the snapshot it would save. A failed tick returns the Python exception.
- `_async_set_heater` does nothing when no heater switch is configured, and it logs errors from the service call. The model records the command the tick requests, not whether the switch received it.
- The `async_refresh` after each command is not modelled; it is the caller's next tick.
- Wall-clock reads are not modelled. `now` and the local time of day are parameters. ISO-8601 formatting of timestamps is not modelled either: they are stored as abstract `Stamp` values.
- `round(…)` display rounding of the computed values and the forecast, and the `round(showers, 1)` in `estimated_showers_available`, are not modelled. Results are specified before rounding.
- IEEE-754 arithmetic is modelled as exact reals. `float()` is modelled for decimal texts (sign, digits, point, exponent); "inf", "nan" and the other special spellings are treated as unparsable.
- The tank's estimated temperature is always a real: it is stored and put into the engine context as a float. The source starts it as the int 55, and `from_dict` defaults to that int, until the first update assigns a float. A sensor that falls back to its default stores the float 0.0 rather than the int 0. All numbers are compared as reals, so comparisons are the same either way.
- WaterTank.Tank.constructor, WaterTank.Tank.UpdateTemperature, WaterTank.Tank.ApplyUsageEvent and the other tank operations require a positive volume and heat-loss rate. A zero volume divides by zero in the source, and a zero loss rate divides by zero in `time_to_cold`.
- WaterTank.Tank.EstimatedShowersAvailable requires cold water below the minimum temperature; otherwise the source's while loop need not terminate. The coordinator's tank always meets this (15 C below 40 C).
- The coordinator builds its tank from the configured volume, wattage and loss rate only. The other temperatures are the defaults: 15, 55, 40 and 20 C.
- Rules.EvalCondition: the "unknown condition type" branch is unreachable. Condition kinds are a closed enumeration, and stored texts outside it fail in `RuleConditionType(…)` at load.
- Rules.RuleFromValue and WaterTank.TankFromValue: a stored field whose Python type the typed model cannot hold (for example a text priority) is reported as `Unsupported` instead of being kept as an ill-typed value.
- Coordinator.ComputedEntries: the function's own contract states only its keys; the value under each key is stated by the lemmas Coordinator.ComputedNumberEntries and Coordinator.ComputedStatusEntries, so that the tick's proof does not carry thirteen lookups.
- Coordinator.LoadStored: the two flags are stored as the truthiness of the saved value, not as the raw value.
- The coordinator's heating mode is recorded but is not consulted by the tick. Only the auto flag decides whether the engine runs, as in the source.
- Logging is not modelled.
- `int()` refuses more than 4300 digits, CPython's default `sys.get_int_max_str_digits()`; a limit changed at run time, or a Python without the limit, is not modelled.
- `int()` and `float()` are modelled on ASCII digits and ASCII whitespace only; Python also accepts other Unicode decimal digits and whitespace (for example a no-break space before a number), which the model treats as unparsable.
