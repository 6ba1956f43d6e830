/** The decision cycle of the coordinator: each tick advances the tank model,
    builds the rule context, asks the rule engine whether to heat when auto mode
    is on, commands the heater only on a change, and records what it fired and
    saved. The explicit commands and the stored snapshot are modelled too. */
module Coordinator {
  import opened Values
  import opened Constants
  import opened Parsing
  import opened WaterTank
  import opened Rules

  // ---------------------------------------------------------------- telemetry

  const STATE_UNAVAILABLE: string := "unavailable"
  const STATE_UNKNOWN: string := "unknown"

  /** `_get_entity_value`: the entity's state as a number, or the default when
      the entity is missing, unavailable, unknown or its state does not parse. */
  function EntityValue(state: Option<string>, default: real): (v: real)
    ensures state.None? || state == Some(STATE_UNAVAILABLE) || state == Some(STATE_UNKNOWN) ==> v == default
    ensures state.Some? && ParseFloat(state.value).None? ==> v == default
    ensures state.Some? && state.value != STATE_UNAVAILABLE && state.value != STATE_UNKNOWN && ParseFloat(state.value).Some?
      ==> v == ParseFloat(state.value).value
  {
    if state.None? || state.value == STATE_UNAVAILABLE || state.value == STATE_UNKNOWN then default
    else
      match ParseFloat(state.value)
      case Some(x) => x
      case None => default
  }

  /** The sensor entities configured for the integration; "" is none. */
  datatype SensorEntities = SensorEntities(
    batterySoc: string,
    solarPower: string,
    gridPower: string,
    batteryPower: string,
    heaterPower: string,
    heaterSwitch: string)

  /** One polling cycle's readings; `None` for a sensor that is not configured. */
  datatype Telemetry = Telemetry(
    batterySoc: Option<real>,
    solarPower: Option<real>,
    gridPower: Option<real>,
    batteryPower: Option<real>,
    heaterPower: Option<real>,
    heaterOn: Option<bool>)

  function StateOf(states: map<string, string>, entity: string): Option<string> {
    if entity in states then Some(states[entity]) else None
  }

  /** The reading of one numeric sensor: none when no entity is configured,
      otherwise its state through `_get_entity_value` with default 0. */
  function ReadingOf(states: map<string, string>, entity: string): (r: Option<real>)
    ensures r.Some? <==> entity != ""
    ensures entity != "" ==> r == Some(EntityValue(StateOf(states, entity), 0.0))
    ensures entity != "" && entity !in states ==> r == Some(0.0)
    ensures && entity != "" && entity in states && states[entity] != STATE_UNAVAILABLE && states[entity] != STATE_UNKNOWN
            && ParseFloat(states[entity]).Some?
      ==> r == ParseFloat(states[entity])
  {
    if entity != "" then Some(EntityValue(StateOf(states, entity), 0.0)) else None
  }

  /** A numeric sensor's reading is present exactly when its entity is
      configured, and is then the entity's state as a number with default 0. */
  predicate ReadsSensor(states: map<string, string>, entity: string, r: Option<real>) {
    && (r.Some? <==> entity != "")
    && (entity != "" ==> r.value == EntityValue(StateOf(states, entity), 0.0))
  }

  /** `_async_get_sensor_data`, given the current entity states: each configured
      numeric sensor through `_get_entity_value` with default 0, and the heater
      on exactly when its switch entity exists and reads "on". */
  function SensorData(entities: SensorEntities, states: map<string, string>): (t: Telemetry)
    ensures ReadsSensor(states, entities.batterySoc, t.batterySoc)
    ensures ReadsSensor(states, entities.solarPower, t.solarPower)
    ensures ReadsSensor(states, entities.gridPower, t.gridPower)
    ensures ReadsSensor(states, entities.batteryPower, t.batteryPower)
    ensures ReadsSensor(states, entities.heaterPower, t.heaterPower)
    ensures t.heaterOn.Some? <==> entities.heaterSwitch != ""
    ensures t.heaterOn == Some(true) <==>
      entities.heaterSwitch != "" && entities.heaterSwitch in states && states[entities.heaterSwitch] == "on"
  {
    Telemetry(
      ReadingOf(states, entities.batterySoc),
      ReadingOf(states, entities.solarPower),
      ReadingOf(states, entities.gridPower),
      ReadingOf(states, entities.batteryPower),
      ReadingOf(states, entities.heaterPower),
      if entities.heaterSwitch != "" then Some(StateOf(states, entities.heaterSwitch) == Some("on")) else None)
  }

  function PutReading(d: map<string, Value>, key: string, r: Option<real>): map<string, Value> {
    if r.Some? then d[key := Float(r.value)] else d
  }

  /** `key` is in the data exactly when its sensor is configured, and then
      holds the reading as a float. */
  predicate HoldsReading(d: map<string, Value>, key: string, r: Option<real>) {
    && (key in d <==> r.Some?)
    && (r.Some? ==> d[key] == Float(r.value))
  }

  /** The `data` dictionary the sensors fill: one key per configured sensor. */
  function TelemetryData(t: Telemetry): (d: map<string, Value>)
    ensures HoldsReading(d, "battery_soc", t.batterySoc)
    ensures HoldsReading(d, "solar_power", t.solarPower)
    ensures HoldsReading(d, "grid_power", t.gridPower)
    ensures HoldsReading(d, "battery_power", t.batteryPower)
    ensures HoldsReading(d, "heater_power", t.heaterPower)
    ensures "heater_on" in d <==> t.heaterOn.Some?
    ensures t.heaterOn.Some? ==> d["heater_on"] == Bool(t.heaterOn.value)
    ensures d.Keys <= {"battery_soc", "solar_power", "grid_power", "battery_power", "heater_power", "heater_on"}
  {
    var d0: map<string, Value> := map[];
    var d1 := PutReading(d0, "battery_soc", t.batterySoc);
    var d2 := PutReading(d1, "solar_power", t.solarPower);
    var d3 := PutReading(d2, "grid_power", t.gridPower);
    var d4 := PutReading(d3, "battery_power", t.batteryPower);
    var d5 := PutReading(d4, "heater_power", t.heaterPower);
    if t.heaterOn.Some? then d5["heater_on" := Bool(t.heaterOn.value)] else d5
  }

  /** `data.get("heater_on", False)`. */
  function HeaterOn(t: Telemetry): (on: bool)
    ensures on <==> t.heaterOn == Some(true)
  {
    if t.heaterOn.Some? then t.heaterOn.value else false
  }

  // ---------------------------------------------------------------- context

  /** Every key of the rule context. */
  const ContextKeys: set<string> := {
    "battery_soc", "solar_power", "grid_power", "battery_power", "heater_power",
    "tank_temp", "daily_heating_minutes", "offpeak_start", "offpeak_end"}

  /** `_build_rule_context`: every telemetry key with default 0, the tank's
      estimate, today's heating in minutes and the configured off-peak window. */
  function BuildContext(data: map<string, Value>, s: TankState, offpeakStart: Value, offpeakEnd: Value): (ctx: Context)
    ensures "tank_temp" in ctx && ctx["tank_temp"] == Float(s.estimatedTemp)
    ensures "daily_heating_minutes" in ctx && ctx["daily_heating_minutes"] == Float(s.totalHeatingToday / 60.0)
    ensures "offpeak_start" in ctx && ctx["offpeak_start"] == offpeakStart
    ensures "offpeak_end" in ctx && ctx["offpeak_end"] == offpeakEnd
    ensures ctx.Keys == ContextKeys
  {
    map[
      "battery_soc" := Get(data, "battery_soc", Int(0)),
      "solar_power" := Get(data, "solar_power", Int(0)),
      "grid_power" := Get(data, "grid_power", Int(0)),
      "battery_power" := Get(data, "battery_power", Int(0)),
      "heater_power" := Get(data, "heater_power", Int(0)),
      "tank_temp" := Float(s.estimatedTemp),
      "daily_heating_minutes" := Float(s.totalHeatingToday / 60.0),
      "offpeak_start" := offpeakStart,
      "offpeak_end" := offpeakEnd]
  }

  /** Each reading the context holds is the sensor's value, or integer 0 for a
      sensor that is not configured. */
  lemma ContextReadings(data: map<string, Value>, s: TankState, start: Value, end: Value)
    ensures var ctx := BuildContext(data, s, start, end);
      && ctx["battery_soc"] == Get(data, "battery_soc", Int(0)) && ctx["solar_power"] == Get(data, "solar_power", Int(0))
      && ctx["grid_power"] == Get(data, "grid_power", Int(0)) && ctx["battery_power"] == Get(data, "battery_power", Int(0))
      && ctx["heater_power"] == Get(data, "heater_power", Int(0))
  {
  }

  /** Every key a condition reads is in the context, so a sensor that is not
      configured reads as 0 there, never as the condition's own default: with
      no solar sensor `solar_power_below` compares 0 (not +inf), with no
      battery sensor `battery_soc_below` compares 0 (not 100). */
  lemma MissingReadingsAreZero(t: Telemetry, s: TankState, start: Value, end: Value, clock: TimeOfDay, y: real)
    requires t.solarPower.None? && t.batterySoc.None?
    ensures var ctx := BuildContext(TelemetryData(t), s, start, end);
      && ConditionHolds(Condition(SolarPowerBelow, Float(y), Null), ctx, clock) == Success(0.0 <= y)
      && ConditionHolds(Condition(BatterySocBelow, Float(y), Null), ctx, clock) == Success(0.0 <= y)
      && ConditionHolds(Condition(BatterySocAbove, Float(y), Null), ctx, clock) == Success(0.0 >= y)
  {
    var ctx := BuildContext(TelemetryData(t), s, start, end);
    ContextReadings(TelemetryData(t), s, start, end);
    assert ctx["solar_power"] == Int(0) && ctx["battery_soc"] == Int(0);
    BatteryAndSolarThresholds(ctx, clock, Float(y), y, 0.0);
  }

  /** The tank temperature a condition compares is the model's estimate. */
  lemma ContextTankTemp(t: Telemetry, s: TankState, start: Value, end: Value, clock: TimeOfDay, y: real)
    ensures var ctx := BuildContext(TelemetryData(t), s, start, end);
      && ConditionHolds(Condition(TankTempBelow, Float(y), Null), ctx, clock) == Success(s.estimatedTemp <= y)
      && ConditionHolds(Condition(TankTempAbove, Float(y), Null), ctx, clock) == Success(s.estimatedTemp >= y)
  {
    var ctx := BuildContext(TelemetryData(t), s, start, end);
    TankTempThresholds(ctx, clock, Float(y), y, s.estimatedTemp);
  }

  /** With neither a battery nor a solar sensor and a tank above the 35 C
      emergency threshold, the default rules decide "off" by battery protection
      (priority 95), whatever the grid reads. */
  lemma NoBatteryOrSolarSensorStopsHeating(t: Telemetry, s: TankState, start: Value, end: Value, clock: TimeOfDay)
    requires t.solarPower.None? && t.batterySoc.None? && s.estimatedTemp > 35.0
    ensures ShouldHeatOf(DefaultRules(), BuildContext(TelemetryData(t), s, start, end), clock)
      == Success(Decision(false, Some("battery_protection")))
  {
    var ctx := BuildContext(TelemetryData(t), s, start, end);
    ContextReadings(TelemetryData(t), s, start, end);
    BatteryProtectionWins(ctx, clock, s.estimatedTemp, 0.0, 0.0);
  }

  // ---------------------------------------------------------------- the decision

  /** A notification the tick fires on the event bus. */
  datatype Event =
    | HeatingStarted(rule: Option<string>, tankTemp: real)
    | HeatingStopped(rule: Option<string>, tankTemp: real)
    | RuleTriggered(ruleName: string, turnOn: bool)

  /** What the tick does about the heater: the command it issues, if any, and
      the notifications that go with it. */
  datatype Reaction = Reaction(command: Option<bool>, events: seq<Event>)

  /** The auto-mode branch of `_async_update_data`: command the decision only
      when it differs from the heater's state; then announce the start or the
      stop, and the rule when its name is truthy. */
  function React(decision: Decision, heaterOn: bool, tankTemp: real): (r: Reaction)
    ensures r.command.Some? <==> decision.heat != heaterOn
    ensures r.command.Some? ==> r.command.value == decision.heat
    ensures r.command.None? ==> r.events == []
    ensures r.command == Some(true) ==> r.events != [] && r.events[0] == HeatingStarted(decision.rule, tankTemp)
    ensures r.command == Some(false) ==> r.events != [] && r.events[0] == HeatingStopped(decision.rule, tankTemp)
    ensures (exists e :: e in r.events && e.RuleTriggered?) <==>
      r.command.Some? && decision.rule.Some? && decision.rule.value != ""
    ensures forall e :: e in r.events && e.RuleTriggered? ==> e == RuleTriggered(decision.rule.value, decision.heat)
  {
    if decision.heat == heaterOn then Reaction(None, [])
    else
      var first := if decision.heat then HeatingStarted(decision.rule, tankTemp) else HeatingStopped(decision.rule, tankTemp);
      if decision.rule.Some? && decision.rule.value != "" then
        var events := [first, RuleTriggered(decision.rule.value, decision.heat)];
        assert events[1] in events;
        Reaction(Some(decision.heat), events)
      else
        Reaction(Some(decision.heat), [first])
  }

  /** A heater that is already where the decision wants it gets no command and
      no notification, so a steady decision is silent. */
  lemma SteadyDecisionIsSilent(decision: Decision, tankTemp: real)
    ensures React(decision, decision.heat, tankTemp) == Reaction(None, [])
  {
  }

  /** The default "off" of an empty rule set stops a running heater without
      naming a rule. */
  lemma NoRuleStopsRunningHeater(rs: seq<Rule>, ctx: Context, clock: TimeOfDay, tankTemp: real)
    requires rs == []
    ensures var d := ShouldHeatOf(rs, ctx, clock);
      d.Success? && React(d.value, true, tankTemp) == Reaction(Some(false), [HeatingStopped(None, tankTemp)])
  {
    NoRulesNeverHeat(ctx, clock);
  }

  /** The elapsed time of a tick: 0 on the first one, otherwise the time since
      the previous successful tick. */
  function Elapsed(lastUpdate: Option<Timestamp>, now: Timestamp): (e: real)
    ensures lastUpdate.None? ==> e == 0.0
    ensures lastUpdate.Some? ==> lastUpdate.value + e == now
  {
    if lastUpdate.Some? then now - lastUpdate.value else 0.0
  }

  /** Seconds a tick must cover before it saves the snapshot. */
  const SAVE_THRESHOLD: real := 300.0

  /** The tick saves only when its own elapsed time exceeds five minutes; the
      first tick never does. */
  lemma SaveOnlyAfterFiveMinutes(lastUpdate: Option<Timestamp>, now: Timestamp)
    ensures Elapsed(lastUpdate, now) > SAVE_THRESHOLD <==> lastUpdate.Some? && now - lastUpdate.value > 300.0
    ensures lastUpdate.None? ==> !(Elapsed(lastUpdate, now) > SAVE_THRESHOLD)
  {
  }

  // ---------------------------------------------------------------- computed values

  /** The values `_get_computed_values` exposes, one field per key, before
      display rounding. */
  datatype Computed = Computed(
    tankTempEstimate: real,
    dailyHeatingMinutes: real,
    dailyHeatingEnergyKwh: real,
    heatingSessionsToday: int,
    energyContentKwh: real,
    estimatedShowers: real,
    timeToTargetMinutes: Option<real>,
    timeToColdHours: real,
    heatingMode: HeatingMode,
    autoModeEnabled: bool,
    offpeakFallbackEnabled: bool,
    currentRule: Option<string>,
    isHeating: bool)

  /** `_get_computed_values` on the tank's configuration and state and the
      coordinator's switches. */
  function ComputedValues(c: TankConfig, s: TankState, mode: HeatingMode, autoMode: bool, offpeakFallback: bool, currentRule: Option<string>): (v: Computed)
    requires ValidConfig(c) && c.coldWaterTemp < c.minTemp
    ensures v.tankTempEstimate == s.estimatedTemp && v.isHeating == s.isHeating
    ensures v.energyContentKwh >= 0.0 && (v.energyContentKwh == 0.0 <==> s.estimatedTemp <= c.coldWaterTemp)
    ensures v.estimatedShowers >= 0.0 && (v.estimatedShowers > 0.0 <==> s.estimatedTemp > c.minTemp)
    ensures v.timeToColdHours >= 0.0 && (v.timeToColdHours > 0.0 <==> s.estimatedTemp > c.minTemp)
    // a zero timedelta is falsy: at or above the target there is no time-to-target
    ensures v.timeToTargetMinutes.Some? ==>
      TimeToTarget(c, s.estimatedTemp).Some? && v.timeToTargetMinutes.value * 60.0 == TimeToTarget(c, s.estimatedTemp).value
  {
    var toTarget := TimeToTarget(c, s.estimatedTemp);
    Computed(
      s.estimatedTemp,
      s.totalHeatingToday / 60.0,
      s.totalEnergyToday,
      s.heatingSessionsToday,
      EnergyContent(c, s.estimatedTemp),
      ShowersFrom(c, VolumeLiters(Shower), s.estimatedTemp),
      if toTarget.Some? && toTarget.value != 0.0 then Some(toTarget.value / 60.0) else None,
      TimeToCold(c, s.estimatedTemp) / 3600.0,
      mode,
      autoMode,
      offpeakFallback,
      currentRule,
      s.isHeating)
  }

  /** A tank at or above its target shows no time-to-target, just like one that
      cannot reach it; below the target with a positive net rate it shows one. */
  lemma TimeToTargetShownOnlyBelowTarget(c: TankConfig, s: TankState, mode: HeatingMode, a: bool, o: bool, rule: Option<string>)
    requires ValidConfig(c) && c.coldWaterTemp < c.minTemp
    ensures s.estimatedTemp >= c.targetTemp ==> ComputedValues(c, s, mode, a, o, rule).timeToTargetMinutes.None?
    ensures s.estimatedTemp < c.targetTemp && HeatingRatePerHour(c) - c.heatLossRate / 2.0 > 0.0 ==>
      ComputedValues(c, s, mode, a, o, rule).timeToTargetMinutes.Some?
  {
  }

  /** The keys of the computed values. */
  const ComputedKeys: set<string> := {
    "tank_temp_estimate", "daily_heating_minutes", "daily_heating_energy_kwh", "heating_sessions_today",
    "energy_content_kwh", "estimated_showers", "time_to_target_minutes", "time_to_cold_hours",
    "heating_mode", "auto_mode_enabled", "offpeak_fallback_enabled", "current_rule", "is_heating"}

  /** The computed values as the entries of the tick's dictionary. */
  function ComputedEntries(v: Computed): (m: map<string, Value>)
    ensures m.Keys == ComputedKeys
  {
    map[
      "tank_temp_estimate" := Float(v.tankTempEstimate),
      "daily_heating_minutes" := Float(v.dailyHeatingMinutes),
      "daily_heating_energy_kwh" := Float(v.dailyHeatingEnergyKwh),
      "heating_sessions_today" := Int(v.heatingSessionsToday),
      "energy_content_kwh" := Float(v.energyContentKwh),
      "estimated_showers" := Float(v.estimatedShowers),
      "time_to_target_minutes" := if v.timeToTargetMinutes.Some? then Float(v.timeToTargetMinutes.value) else Null,
      "time_to_cold_hours" := Float(v.timeToColdHours),
      "heating_mode" := Str(HeatingModeText(v.heatingMode)),
      "auto_mode_enabled" := Bool(v.autoModeEnabled),
      "offpeak_fallback_enabled" := Bool(v.offpeakFallbackEnabled),
      "current_rule" := if v.currentRule.Some? then Str(v.currentRule.value) else Null,
      "is_heating" := Bool(v.isHeating)]
  }

  /** The numbers among the computed entries, each as its float or int; no
      time to target is `None`. */
  lemma ComputedNumberEntries(v: Computed)
    ensures var m := ComputedEntries(v);
      && m["tank_temp_estimate"] == Float(v.tankTempEstimate)
      && m["daily_heating_minutes"] == Float(v.dailyHeatingMinutes)
      && m["daily_heating_energy_kwh"] == Float(v.dailyHeatingEnergyKwh)
      && m["heating_sessions_today"] == Int(v.heatingSessionsToday)
      && m["energy_content_kwh"] == Float(v.energyContentKwh)
      && m["estimated_showers"] == Float(v.estimatedShowers)
      && (v.timeToTargetMinutes.None? ==> m["time_to_target_minutes"] == Null)
      && (v.timeToTargetMinutes.Some? ==> m["time_to_target_minutes"] == Float(v.timeToTargetMinutes.value))
      && m["time_to_cold_hours"] == Float(v.timeToColdHours)
  {
  }

  /** The mode, the switches, the current rule (`None` when no rule has
      triggered) and the heater state among the computed entries. */
  lemma ComputedStatusEntries(v: Computed)
    ensures var m := ComputedEntries(v);
      && HeatingModeOf(m["heating_mode"]) == Success(v.heatingMode)
      && m["auto_mode_enabled"] == Bool(v.autoModeEnabled)
      && m["offpeak_fallback_enabled"] == Bool(v.offpeakFallbackEnabled)
      && (v.currentRule.None? ==> m["current_rule"] == Null)
      && (v.currentRule.Some? ==> m["current_rule"] == Str(v.currentRule.value))
      && m["is_heating"] == Bool(v.isHeating)
  {
    HeatingModeRoundTrip(v.heatingMode);
  }

  /** The two entries the decision step writes: the decision and the rule with
      auto mode on, two `None`s with it off. */
  function DecisionEntries(decision: Option<Decision>): (m: map<string, Value>)
    ensures m.Keys == {"should_heat", "triggered_rule"}
    ensures decision.None? ==> m["should_heat"] == Null && m["triggered_rule"] == Null
    ensures decision.Some? ==> m["should_heat"] == Bool(decision.value.heat)
    ensures decision.Some? && decision.value.rule.Some? ==> m["triggered_rule"] == Str(decision.value.rule.value)
    ensures decision.Some? && decision.value.rule.None? ==> m["triggered_rule"] == Null
  {
    if decision.None? then map["should_heat" := Null, "triggered_rule" := Null]
    else
      map["should_heat" := Bool(decision.value.heat),
          "triggered_rule" := if decision.value.rule.Some? then Str(decision.value.rule.value) else Null]
  }

  /** The map a successful tick returns: the readings, the decision entries,
      then the computed values. */
  function TickData(t: Telemetry, decision: Option<Decision>, computed: map<string, Value>): (d: map<string, Value>)
    ensures d.Keys == TelemetryData(t).Keys + {"should_heat", "triggered_rule"} + computed.Keys
  {
    TelemetryData(t) + DecisionEntries(decision) + computed
  }

  /** The computed values override nothing the tick reports: the readings and
      the decision entries survive next to them. */
  lemma TickDataKeepsDecision(t: Telemetry, decision: Option<Decision>, computed: map<string, Value>)
    requires computed.Keys == ComputedKeys
    ensures var d := TickData(t, decision, computed);
      && d["should_heat"] == DecisionEntries(decision)["should_heat"]
      && d["triggered_rule"] == DecisionEntries(decision)["triggered_rule"]
      && (forall k :: k in computed ==> d[k] == computed[k])
      && (t.heaterOn.Some? ==> d["heater_on"] == Bool(t.heaterOn.value))
      && (t.gridPower.Some? ==> d["grid_power"] == Float(t.gridPower.value))
  {
    var tel, dec := TelemetryData(t), DecisionEntries(decision);
    assert "should_heat" !in computed && "triggered_rule" !in computed by {
      assert "should_heat" !in ComputedKeys && "triggered_rule" !in ComputedKeys;
    }
    assert "heater_on" !in computed && "grid_power" !in computed by {
      assert "heater_on" !in ComputedKeys && "grid_power" !in ComputedKeys;
    }
    MergeLookup(tel, dec, computed, "should_heat");
    MergeLookup(tel, dec, computed, "triggered_rule");
    MergeLookup(tel, dec, computed, "heater_on");
    MergeLookup(tel, dec, computed, "grid_power");
  }

  /** A key of a three-way merge is read from the last map that holds it. */
  lemma MergeLookup(a: map<string, Value>, b: map<string, Value>, c: map<string, Value>, k: string)
    requires k !in c
    ensures k in b ==> (a + b + c)[k] == b[k]
    ensures k !in b && k in a ==> (a + b + c)[k] == a[k]
  {
  }

  // ---------------------------------------------------------------- the snapshot

  /** What the coordinator persists. */
  datatype Persisted = Persisted(tank: TankState, rules: seq<Rule>, mode: HeatingMode, autoMode: bool, offpeakFallback: bool)

  /** `_async_save_state`: the dictionary handed to the store. */
  function SnapshotValue(p: Persisted): (v: Value)
    ensures v.Dict? && v.entries.Keys == {"water_tank", "rules", "heating_mode", "auto_mode_enabled", "offpeak_fallback_enabled"}
  {
    Dict(map[
      "water_tank" := TankToValue(p.tank),
      "rules" := EngineToValue(p.rules),
      "heating_mode" := Str(HeatingModeText(p.mode)),
      "auto_mode_enabled" := Bool(p.autoMode),
      "offpeak_fallback_enabled" := Bool(p.offpeakFallback)])
  }

  /** The outcome of `_load_stored_data`: what was restored before any error. */
  datatype Loaded = Loaded(state: Persisted, error: Option<PyError>)

  /** `_load_stored_data`: the tank, then the rules, then the mode, each only
      when stored; an exception stops the load there. The two flags default to
      true when absent. */
  function LoadStored(p: Persisted, data: map<string, Value>): (r: Loaded)
    ensures data == map[] ==> r == Loaded(p.(autoMode := true, offpeakFallback := true), None)
    ensures r.error.None? && "heating_mode" !in data ==> r.state.mode == p.mode
    ensures r.error.None? ==> r.state.autoMode == Truthy(Get(data, "auto_mode_enabled", Bool(true)))
    ensures r.error.None? ==> r.state.offpeakFallback == Truthy(Get(data, "offpeak_fallback_enabled", Bool(true)))
    ensures "water_tank" !in data ==> r.state.tank == p.tank
    ensures "water_tank" in data ==> r.state.tank == TankFromValue(p.tank, data["water_tank"]).state
    ensures "rules" !in data ==> r.state.rules == p.rules
    ensures r.error.None? && "rules" in data
      ==> StoredRules(data["rules"]).Success? && r.state.rules == SortByPriority(StoredRules(data["rules"]).value)
    ensures r.error.Some? ==> r.state.mode == p.mode && r.state.autoMode == p.autoMode && r.state.offpeakFallback == p.offpeakFallback
  {
    var t := if "water_tank" in data then TankFromValue(p.tank, data["water_tank"]) else Restored(p.tank, None);
    var p1 := p.(tank := t.state);
    if t.error.Some? then Loaded(p1, t.error)
    else
      var stored := if "rules" in data then StoredRules(data["rules"]) else Success(p.rules);
      if stored.Failure? then Loaded(p1, Some(stored.error))
      else
        var p2 := if "rules" in data then p1.(rules := SortByPriority(stored.value)) else p1;
        var mode := if "heating_mode" in data then HeatingModeOf(data["heating_mode"]) else Success(p.mode);
        if mode.Failure? then Loaded(p2, Some(mode.error))
        else
          Loaded(p2.(mode := mode.value,
                     autoMode := Truthy(Get(data, "auto_mode_enabled", Bool(true))),
                     offpeakFallback := Truthy(Get(data, "offpeak_fallback_enabled", Bool(true)))), None)
  }

  lemma HeatingModeRoundTrip(m: HeatingMode)
    ensures HeatingModeOf(Str(HeatingModeText(m))) == Success(m)
  {
  }

  /** Loading a saved snapshot brings back the tank state (an absent heating
      timestamp keeps the one already loaded), the rules in stable priority
      order, the mode and both flags. */
  lemma SnapshotRoundTrip(p: Persisted, q: Persisted)
    ensures LoadStored(q, SnapshotValue(p).entries) == Loaded(
      Persisted(
        p.tank.(lastHeatingStart := if p.tank.lastHeatingStart.Some? then p.tank.lastHeatingStart else q.tank.lastHeatingStart,
                lastHeatingEnd := if p.tank.lastHeatingEnd.Some? then p.tank.lastHeatingEnd else q.tank.lastHeatingEnd),
        SortByPriority(p.rules), p.mode, p.autoMode, p.offpeakFallback),
      None)
  {
    var d := SnapshotValue(p).entries;
    TankRoundTrip(p.tank, q.tank);
    EngineRoundTrip(p.rules);
    HeatingModeRoundTrip(p.mode);
    assert Get(d, "auto_mode_enabled", Bool(true)) == Bool(p.autoMode);
    assert Get(d, "offpeak_fallback_enabled", Bool(true)) == Bool(p.offpeakFallback);
    LoadStoredComplete(q, d, TankFromValue(q.tank, d["water_tank"]).state, p.rules, p.mode);
  }

  /** A snapshot whose tank, rules and mode all load is loaded in full. */
  lemma LoadStoredComplete(p: Persisted, data: map<string, Value>, tank: TankState, rules: seq<Rule>, mode: HeatingMode)
    requires "water_tank" in data && TankFromValue(p.tank, data["water_tank"]) == Restored(tank, None)
    requires "rules" in data && StoredRules(data["rules"]) == Success(rules)
    requires "heating_mode" in data && HeatingModeOf(data["heating_mode"]) == Success(mode)
    ensures LoadStored(p, data) == Loaded(
      Persisted(tank, SortByPriority(rules), mode,
                Truthy(Get(data, "auto_mode_enabled", Bool(true))),
                Truthy(Get(data, "offpeak_fallback_enabled", Bool(true)))),
      None)
  {
  }

  // ---------------------------------------------------------------- the coordinator

  /** What a successful tick reports: the readings, the decision when auto
      mode is on, and the computed values. */
  datatype TickReport = TickReport(readings: Telemetry, decision: Option<Decision>, computed: Computed)
  {
    /** The data map `_async_update_data` returns. */
    function Data(): map<string, Value> {
      TickData(readings, decision, ComputedEntries(computed))
    }
  }

  /** The outcome of one tick: what it reports (its data map is `report.Data()`),
      the heater command and notifications, and the state it saved, if any
      (stored as `SnapshotValue`); or the exception that aborted it. */
  datatype TickOutcome =
    | Ticked(report: TickReport, reaction: Reaction, saved: Option<Persisted>)
    | Failed(error: PyError)

  /** `SolarRouterCoordinator`: one tank model and one rule engine, the heating
      mode and flags, and the time of the last successful tick. */
  class Orchestrator {
    const tank: Tank
    const engine: RuleEngine
    const offpeakStart: Value
    const offpeakEnd: Value
    var heatingMode: HeatingMode
    var autoModeEnabled: bool
    var offpeakFallbackEnabled: bool
    var lastUpdateTime: Option<Timestamp>
    var heaterWasOn: bool

    /** The tank settings the coordinator always builds: the temperature
        defaults keep cold water below the minimum usable temperature. */
    predicate Valid() {
      ValidConfig(tank.config) && tank.config.coldWaterTemp < tank.config.minTemp
    }

    /** The part of the state that is saved and loaded. */
    function Persist(): Persisted
      reads this, tank, engine
    {
      Persisted(tank.state, engine.rules, heatingMode, autoModeEnabled, offpeakFallbackEnabled)
    }

    /** `_async_save_state`: the snapshot of the current state. */
    function Snapshot(): Value
      reads this, tank, engine
    {
      SnapshotValue(Persist())
    }

    /** `_get_computed_values` on the current state. */
    function CurrentValues(): Computed
      requires Valid()
      reads this, tank, engine
    {
      ComputedValues(tank.config, tank.state, heatingMode, autoModeEnabled, offpeakFallbackEnabled, engine.lastTriggeredRule)
    }

    /** A tank from the configured volume, wattage and heat-loss rate with the
        default temperatures, the default rules, auto mode on, no tick yet. */
    constructor (volume: real, wattage: real, heatLossRate: real, offpeakStart: Value, offpeakEnd: Value, now: Timestamp)
      requires volume > 0.0 && heatLossRate > 0.0
      ensures Valid() && fresh(tank) && fresh(engine)
      ensures tank.config == CoordinatorConfig(volume, wattage, heatLossRate) && tank.state == InitialState(now)
      ensures engine.rules == DefaultRules() && engine.lastTriggeredRule == None
      ensures heatingMode == Auto && autoModeEnabled && offpeakFallbackEnabled
      ensures lastUpdateTime == None && !heaterWasOn
      ensures this.offpeakStart == offpeakStart && this.offpeakEnd == offpeakEnd
    {
      engine := new RuleEngine();
      tank := new Tank(CoordinatorConfig(volume, wattage, heatLossRate), now);
      this.offpeakStart := offpeakStart;
      this.offpeakEnd := offpeakEnd;
      heatingMode := Auto;
      autoModeEnabled := true;
      offpeakFallbackEnabled := true;
      lastUpdateTime := None;
      heaterWasOn := false;
    }

    /** `_async_update_data` for one set of readings at `now` (UTC) and local
        time of day `clock`. */
    method Tick(telemetry: Telemetry, now: Timestamp, clock: TimeOfDay) returns (outcome: TickOutcome)
      requires Valid()
      modifies this, tank, engine
      ensures Valid()
      ensures tank.state == Advance(tank.config, old(tank.state), HeaterOn(telemetry), Elapsed(old(lastUpdateTime), now), now)
      ensures heatingMode == old(heatingMode) && autoModeEnabled == old(autoModeEnabled)
      ensures offpeakFallbackEnabled == old(offpeakFallbackEnabled)
      // with auto mode off the engine is not consulted and the heater is left alone
      ensures !old(autoModeEnabled) ==>
        && engine.rules == old(engine.rules)
        && engine.lastTriggeredRule == old(engine.lastTriggeredRule)
        && outcome.Ticked? && outcome.reaction == Reaction(None, [])
        && outcome.report == TickReport(telemetry, None, CurrentValues())
      // with auto mode on the engine decides on the context of the advanced tank
      ensures old(autoModeEnabled) ==> engine.rules == SortByPriority(old(engine.rules))
      // the first triggered rule becomes the reported `current_rule`
      ensures old(autoModeEnabled) ==>
        var e := FirstMatch(engine.rules, BuildContext(TelemetryData(telemetry), tank.state, offpeakStart, offpeakEnd), clock);
        && (e.Success? ==> engine.lastTriggeredRule == FirstName(e.value.triggered))
        && (e.Failure? ==> engine.lastTriggeredRule == old(engine.lastTriggeredRule))
      ensures old(autoModeEnabled) ==>
        var d := ShouldHeatOf(old(engine.rules), BuildContext(TelemetryData(telemetry), tank.state, offpeakStart, offpeakEnd), clock);
        && (d.Failure? ==> outcome == Failed(d.error))
        && (d.Success? ==>
              && outcome.Ticked?
              && outcome.reaction == React(d.value, HeaterOn(telemetry), tank.state.estimatedTemp)
              && outcome.report == TickReport(telemetry, Some(d.value), CurrentValues()))
      // a failed tick does not record its time
      ensures outcome.Failed? ==> lastUpdateTime == old(lastUpdateTime) && heaterWasOn == old(heaterWasOn)
      ensures outcome.Ticked? ==> lastUpdateTime == Some(now) && heaterWasOn == HeaterOn(telemetry)
      // the snapshot is saved only when this tick covered more than five minutes
      ensures outcome.Ticked? ==>
        outcome.saved == if Elapsed(old(lastUpdateTime), now) > SAVE_THRESHOLD then Some(Persist()) else None
    {
      var elapsedSeconds := Elapsed(lastUpdateTime, now);
      var heaterOn := HeaterOn(telemetry);
      var _ := tank.UpdateTemperature(heaterOn, elapsedSeconds, now);
      var context := BuildContext(TelemetryData(telemetry), tank.state, offpeakStart, offpeakEnd);
      var reaction := Reaction(None, []);
      var decided: Option<Decision> := None;
      if autoModeEnabled {
        var decision := engine.ShouldHeat(context, clock);
        if decision.Failure? {
          return Failed(decision.error);
        }
        decided := Some(decision.value);
        reaction := React(decision.value, heaterOn, tank.state.estimatedTemp);
      }
      lastUpdateTime := Some(now);
      heaterWasOn := heaterOn;
      var saved := if elapsedSeconds > SAVE_THRESHOLD then Some(Persist()) else None;
      outcome := Ticked(TickReport(telemetry, decided, CurrentValues()), reaction, saved);
    }

    /** `_load_stored_data`: restore the saved parts of the state. */
    method LoadStoredData(data: map<string, Value>) returns (error: Option<PyError>)
      requires Valid()
      modifies this, tank, engine
      ensures Valid()
      ensures LoadStored(old(Persist()), data) == Loaded(Persist(), error)
      ensures engine.lastTriggeredRule == old(engine.lastTriggeredRule)
      ensures lastUpdateTime == old(lastUpdateTime) && heaterWasOn == old(heaterWasOn)
    {
      if "water_tank" in data {
        error := tank.FromDict(data["water_tank"]);
        if error.Some? {
          return;
        }
      }
      if "rules" in data {
        error := engine.FromDict(data["rules"]);
        if error.Some? {
          return;
        }
      }
      if "heating_mode" in data {
        var mode := HeatingModeOf(data["heating_mode"]);
        if mode.Failure? {
          return Some(mode.error);
        }
        heatingMode := mode.value;
      }
      autoModeEnabled := Truthy(Get(data, "auto_mode_enabled", Bool(true)));
      offpeakFallbackEnabled := Truthy(Get(data, "offpeak_fallback_enabled", Bool(true)));
      error := None;
    }

    /** `_async_midnight_reset`: zero the daily counters and save; the refresh
        that follows is the caller's next tick. */
    method MidnightReset() returns (saved: Value)
      modifies tank
      ensures tank.state == ResetDaily(old(tank.state))
      ensures saved == Snapshot()
    {
      tank.ResetDailyStats();
      saved := Snapshot();
    }

    /** `async_set_auto_mode`. */
    method SetAutoMode(enabled: bool) returns (saved: Value)
      modifies this
      ensures autoModeEnabled == enabled
      ensures heatingMode == old(heatingMode) && offpeakFallbackEnabled == old(offpeakFallbackEnabled)
      ensures lastUpdateTime == old(lastUpdateTime) && heaterWasOn == old(heaterWasOn)
      ensures saved == Snapshot()
    {
      autoModeEnabled := enabled;
      saved := Snapshot();
    }

    /** `async_set_offpeak_fallback`: the flag and the `enabled` flag of the
        rule named "offpeak_fallback", if there is one. */
    method SetOffpeakFallback(enabled: bool) returns (saved: Value)
      modifies this, engine
      ensures offpeakFallbackEnabled == enabled
      ensures engine.rules == SetEnabled(old(engine.rules), "offpeak_fallback", enabled)
      ensures engine.lastTriggeredRule == old(engine.lastTriggeredRule)
      ensures heatingMode == old(heatingMode) && autoModeEnabled == old(autoModeEnabled)
      ensures lastUpdateTime == old(lastUpdateTime) && heaterWasOn == old(heaterWasOn)
      ensures saved == Snapshot()
    {
      offpeakFallbackEnabled := enabled;
      if enabled {
        var _ := engine.EnableRule("offpeak_fallback");
      } else {
        var _ := engine.DisableRule("offpeak_fallback");
      }
      saved := Snapshot();
    }

    /** `async_force_heating`: forced mode and a command to turn the heater on;
        the duration is not used. */
    method ForceHeating(durationMinutes: int) returns (command: bool, saved: Value)
      modifies this
      ensures heatingMode == Forced && command
      ensures autoModeEnabled == old(autoModeEnabled) && offpeakFallbackEnabled == old(offpeakFallbackEnabled)
      ensures lastUpdateTime == old(lastUpdateTime) && heaterWasOn == old(heaterWasOn)
      ensures saved == Snapshot()
    {
      heatingMode := Forced;
      command := true;
      saved := Snapshot();
    }

    /** `async_stop_heating`: a command to turn the heater off, then auto mode
        if it is enabled and off otherwise; nothing is saved. */
    method StopHeating() returns (command: bool)
      modifies this
      ensures !command
      ensures heatingMode == if autoModeEnabled then Auto else Off
      ensures autoModeEnabled == old(autoModeEnabled) && offpeakFallbackEnabled == old(offpeakFallbackEnabled)
      ensures lastUpdateTime == old(lastUpdateTime) && heaterWasOn == old(heaterWasOn)
    {
      command := false;
      heatingMode := if autoModeEnabled then Auto else Off;
    }

    /** `async_set_tank_temperature`: calibrate the estimate and save. */
    method SetTankTemperature(temperature: real, now: Timestamp) returns (saved: Value)
      modifies tank
      ensures tank.state == Calibrate(tank.config, old(tank.state), temperature, now)
      ensures saved == Snapshot()
    {
      tank.SetTemperature(temperature, now);
      saved := Snapshot();
    }

    /** `async_apply_usage_event`: apply the named draw and save. */
    method ApplyUsageEvent(eventName: string) returns (saved: Value)
      requires Valid()
      modifies tank
      ensures tank.state == ApplyUsage(tank.config, old(tank.state), eventName)
      ensures saved == Snapshot()
    {
      var _ := tank.ApplyUsageEvent(eventName);
      saved := Snapshot();
    }

    /** `get_temperature_forecast`. */
    method TemperatureForecast(hours: int, now: Timestamp, startHour: nat) returns (forecast: seq<ForecastPoint>)
      requires Valid()
      ensures |forecast| == if hours >= 0 then hours + 1 else 0
      ensures forall h :: 0 <= h < |forecast| ==>
        forecast[h] == ForecastPoint(now + 3600.0 * h as real, ForecastTemp(tank.config, tank.state.estimatedTemp, startHour, h), h)
      ensures forall h :: 0 <= h < |forecast| ==>
        forecast[h].hour == h && forecast[h].temperature >= tank.config.coldWaterTemp
    {
      forecast := tank.GetForecast(hours, now, startHour);
    }
  }
}
