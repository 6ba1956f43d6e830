/** The linear thermal model of a water tank that has no temperature sensor:
    heating and heat loss over elapsed time, mixing in cold water on usage,
    and the queries built on the estimated temperature. */
module WaterTank {
  import opened Values
  import opened Constants

  const WATER_SPECIFIC_HEAT: real := 4186.0   // J/(kg.C)
  const WATER_DENSITY: real := 1.0            // kg/L

  /** Heat loss is normalised by the default target-ambient gap, not by the
      tank's own settings. */
  const LOSS_REFERENCE_GAP: real := DEFAULT_TARGET_TEMP - DEFAULT_AMBIENT_TEMP

  datatype UsageEvent = UsageEvent(name: string, durationMinutes: real, flowRateLpm: real, hotWaterFraction: real)

  /** Hot water drawn by one event, in litres. */
  function VolumeLiters(e: UsageEvent): real {
    e.durationMinutes * e.flowRateLpm * e.hotWaterFraction
  }

  const Shower: UsageEvent := UsageEvent("Shower", DEFAULT_SHOWER_DURATION, DEFAULT_SHOWER_FLOW_RATE, 0.7)
  const Dishes: UsageEvent := UsageEvent("Dishes", DEFAULT_DISH_DURATION, DEFAULT_DISH_FLOW_RATE, 0.7)

  /** The usage events every tank model is built with, by name. */
  const UsageEvents: map<string, UsageEvent> := map["shower" := Shower, "dishes" := Dishes]

  /** A shower draws 10 min x 10 L/min x 0.7 = 70 L of hot water, dishes 42 L. */
  lemma DefaultEventVolumes()
    ensures VolumeLiters(UsageEvents["shower"]) == 70.0
    ensures VolumeLiters(UsageEvents["dishes"]) == 42.0
  {
  }

  /** The tank's physical settings, fixed at construction. */
  datatype TankConfig = TankConfig(
    volume: real,          // litres
    wattage: real,         // heater power, W
    heatLossRate: real,    // C per hour at the reference gap
    coldWaterTemp: real,
    targetTemp: real,
    minTemp: real,
    ambientTemp: real)

  /** The settings the configuration form allows: volume 50-500 L and heat loss
      0.1-2 C/h, so the divisions by volume and by heat-loss rate are defined. */
  predicate ValidConfig(c: TankConfig) {
    c.volume > 0.0 && c.heatLossRate > 0.0
  }

  /** The tank the coordinator builds: only volume, wattage and heat-loss rate
      come from the configuration; the temperatures are the defaults. */
  function CoordinatorConfig(volume: real, wattage: real, heatLossRate: real): TankConfig {
    TankConfig(volume, wattage, heatLossRate, DEFAULT_COLD_WATER_TEMP, DEFAULT_TARGET_TEMP, DEFAULT_MIN_TEMP, DEFAULT_AMBIENT_TEMP)
  }

  datatype TankState = TankState(
    estimatedTemp: real,
    lastUpdate: Timestamp,
    lastHeatingStart: Option<Timestamp>,
    lastHeatingEnd: Option<Timestamp>,
    totalHeatingToday: real,       // seconds
    totalEnergyToday: real,        // kWh
    heatingSessionsToday: int,
    isHeating: bool)

  /** A fresh state: the default target temperature, no sessions, not heating. */
  function InitialState(now: Timestamp): TankState {
    TankState(DEFAULT_TARGET_TEMP, now, None, None, 0.0, 0.0, 0, false)
  }

  // ---------------------------------------------------------------- rates

  /** Thermal mass of the water, J/C. */
  function ThermalMass(c: TankConfig): real {
    c.volume * WATER_DENSITY * WATER_SPECIFIC_HEAT
  }

  /** Temperature rise while heating, C per second. */
  function HeatingRate(c: TankConfig): (r: real)
    requires c.volume > 0.0
    ensures r * ThermalMass(c) == c.wattage
  {
    c.wattage / ThermalMass(c)
  }

  function HeatingRatePerMinute(c: TankConfig): (r: real)
    requires c.volume > 0.0
    ensures r == 60.0 * HeatingRate(c)
  {
    HeatingRate(c) * 60.0
  }

  function HeatingRatePerHour(c: TankConfig): (r: real)
    requires c.volume > 0.0
    ensures r == 3600.0 * HeatingRate(c)
  {
    HeatingRate(c) * 3600.0
  }

  /** `calculate_heat_loss`: the temperature drop over `hours`, proportional to
      the gap above ambient and zero at or below ambient. */
  function HeatLoss(c: TankConfig, temp: real, hours: real): (loss: real)
    ensures temp <= c.ambientTemp ==> loss == 0.0
    ensures hours >= 0.0 && c.heatLossRate >= 0.0 ==> loss >= 0.0
    ensures temp > c.ambientTemp ==> loss * LOSS_REFERENCE_GAP == c.heatLossRate * hours * (temp - c.ambientTemp)
  {
    var diff := temp - c.ambientTemp;
    if diff <= 0.0 then 0.0
    else
      NonNegativeProduct(c.heatLossRate, hours, diff / LOSS_REFERENCE_GAP);
      c.heatLossRate * hours * (diff / LOSS_REFERENCE_GAP)
  }

  lemma NonNegativeProduct(a: real, b: real, d: real)
    requires d > 0.0
    ensures a >= 0.0 && b >= 0.0 ==> a * b * d >= 0.0
  {
    if a >= 0.0 && b >= 0.0 {
      assert a * b >= 0.0;
    }
  }

  // ---------------------------------------------------------------- usage

  /** Temperature after replacing `used` litres with cold water, volume-weighted. */
  function MixedTemp(c: TankConfig, temp: real, used: real): real
    requires c.volume > 0.0
  {
    ((c.volume - used) * temp + used * c.coldWaterTemp) / c.volume
  }

  /** `calculate_usage_temp_drop`: drop to cold water when the event uses the whole
      tank or more, otherwise the drop to the mixed temperature. */
  function UsageTempDrop(c: TankConfig, temp: real, e: UsageEvent): (drop: real)
    requires c.volume > 0.0
    ensures VolumeLiters(e) >= c.volume ==> temp - drop == c.coldWaterTemp
    ensures VolumeLiters(e) < c.volume ==> temp - drop == MixedTemp(c, temp, VolumeLiters(e))
  {
    var used := VolumeLiters(e);
    if used >= c.volume then temp - c.coldWaterTemp
    else temp - MixedTemp(c, temp, used)
  }

  /** A partial draw leaves the mixed temperature between cold water and the old
      temperature. */
  lemma MixedTempBetween(c: TankConfig, temp: real, used: real)
    requires c.volume > 0.0 && 0.0 <= used <= c.volume && temp >= c.coldWaterTemp
    ensures c.coldWaterTemp <= MixedTemp(c, temp, used) <= temp
  {
    var m := MixedTemp(c, temp, used);
    var v := c.volume;
    assert m * v == (v - used) * temp + used * c.coldWaterTemp;
    assert (v - used) * temp - (v - used) * c.coldWaterTemp == (v - used) * (temp - c.coldWaterTemp);
    assert used * temp - used * c.coldWaterTemp == used * (temp - c.coldWaterTemp);
    assert (v - used) * temp + used * temp == v * temp;
    assert (v - used) * c.coldWaterTemp + used * c.coldWaterTemp == v * c.coldWaterTemp;
    NonNegativeMul(used, temp - c.coldWaterTemp);
    NonNegativeMul(v - used, temp - c.coldWaterTemp);
    assert m * v <= temp * v;
    assert m * v >= c.coldWaterTemp * v;
    if m > temp {
      MulStrict(temp, m, v);
    }
    if m < c.coldWaterTemp {
      MulStrict(m, c.coldWaterTemp, v);
    }
  }

  /** `apply_usage_event` on a state: an unknown event name changes nothing. */
  function ApplyUsage(c: TankConfig, s: TankState, name: string): (r: TankState)
    requires c.volume > 0.0
    ensures name !in UsageEvents ==> r == s
    ensures name in UsageEvents ==> r == s.(estimatedTemp := r.estimatedTemp)
    ensures name in UsageEvents && VolumeLiters(UsageEvents[name]) >= c.volume ==> r.estimatedTemp == c.coldWaterTemp
    ensures name in UsageEvents && VolumeLiters(UsageEvents[name]) < c.volume ==>
      r.estimatedTemp * c.volume
        == (c.volume - VolumeLiters(UsageEvents[name])) * s.estimatedTemp + VolumeLiters(UsageEvents[name]) * c.coldWaterTemp
  {
    if name !in UsageEvents then s
    else s.(estimatedTemp := s.estimatedTemp - UsageTempDrop(c, s.estimatedTemp, UsageEvents[name]))
  }

  /** The default shower on a full 200 L tank at 55 C with 15 C cold water:
      70 L replaced, (130 x 55 + 70 x 15) / 200 = 41 C. */
  lemma ShowerScenario(s: TankState)
    requires s.estimatedTemp == 55.0
    ensures ApplyUsage(CoordinatorConfig(200.0, 2400.0, 0.5), s, "shower").estimatedTemp == 41.0
  {
    DefaultEventVolumes();
  }

  // ---------------------------------------------------------------- advancing

  /** The temperature reached after `elapsed` seconds; heating is capped at the
      target (thermostat), idling is floored at the cold-water temperature. */
  function AdvanceTemp(c: TankConfig, temp: real, heating: bool, elapsed: real): real
    requires c.volume > 0.0
  {
    var hours := elapsed / 3600.0;
    if heating then
      var t := temp + HeatingRate(c) * elapsed - HeatLoss(c, temp, hours);
      if t < c.targetTemp then t else c.targetTemp
    else
      var t := temp - HeatLoss(c, temp, hours);
      if t > c.coldWaterTemp then t else c.coldWaterTemp
  }

  /** `update_temperature` on a state, `now` being the time of the call. */
  function Advance(c: TankConfig, s: TankState, heating: bool, elapsed: real, now: Timestamp): TankState
    requires c.volume > 0.0
  {
    var started := heating && !s.isHeating;
    var ended := !heating && s.isHeating;
    TankState(
      AdvanceTemp(c, s.estimatedTemp, heating, elapsed),
      now,
      if started then Some(now) else s.lastHeatingStart,
      if ended then Some(now) else s.lastHeatingEnd,
      if heating then s.totalHeatingToday + elapsed else s.totalHeatingToday,
      if heating then s.totalEnergyToday + (c.wattage * elapsed) / 3600000.0 else s.totalEnergyToday,
      if started then s.heatingSessionsToday + 1 else s.heatingSessionsToday,
      heating)
  }

  /** Heating never ends above the target temperature. */
  lemma HeatingCappedAtTarget(c: TankConfig, s: TankState, elapsed: real, now: Timestamp)
    requires c.volume > 0.0
    ensures Advance(c, s, true, elapsed, now).estimatedTemp <= c.targetTemp
  {
  }

  /** Idling never ends below cold water and, from at or above cold water with
      non-negative elapsed time, never ends above where it started. */
  lemma IdleBounds(c: TankConfig, s: TankState, elapsed: real, now: Timestamp)
    requires ValidConfig(c)
    ensures Advance(c, s, false, elapsed, now).estimatedTemp >= c.coldWaterTemp
    ensures elapsed >= 0.0 && s.estimatedTemp >= c.coldWaterTemp ==>
      Advance(c, s, false, elapsed, now).estimatedTemp <= s.estimatedTemp
  {
    if elapsed >= 0.0 {
      assert elapsed / 3600.0 >= 0.0;
      assert HeatLoss(c, s.estimatedTemp, elapsed / 3600.0) >= 0.0;
    }
  }

  /** At or below ambient an idle tank keeps its temperature (floored at cold water). */
  lemma IdleAtAmbientKeepsTemp(c: TankConfig, s: TankState, elapsed: real, now: Timestamp)
    requires c.volume > 0.0
    requires s.estimatedTemp <= c.ambientTemp && s.estimatedTemp >= c.coldWaterTemp
    ensures Advance(c, s, false, elapsed, now).estimatedTemp == s.estimatedTemp
  {
  }

  /** `update_temperature(false, 0)` keeps a temperature at or above cold water,
      and repeating it changes nothing but the update time. */
  lemma IdleZeroElapsedIdempotent(c: TankConfig, s: TankState, now: Timestamp, later: Timestamp)
    requires c.volume > 0.0 && s.estimatedTemp >= c.coldWaterTemp
    ensures Advance(c, s, false, 0.0, now).estimatedTemp == s.estimatedTemp
    ensures var r := Advance(c, s, false, 0.0, now);
      Advance(c, r, false, 0.0, later) == r.(lastUpdate := later)
  {
    assert HeatLoss(c, s.estimatedTemp, 0.0) == 0.0 by {
      assert 0.0 / 3600.0 == 0.0;
    }
  }

  /** The session counter and the start time move only on an off-to-on
      transition, the end time only on on-to-off; heating time and energy grow
      only while heating; the flag and the update time are always set. */
  lemma AdvanceTransitions(c: TankConfig, s: TankState, heating: bool, elapsed: real, now: Timestamp)
    requires c.volume > 0.0
    ensures var r := Advance(c, s, heating, elapsed, now);
      && r.isHeating == heating && r.lastUpdate == now
      && (r.heatingSessionsToday == s.heatingSessionsToday + 1 <==> heating && !s.isHeating)
      && (r.heatingSessionsToday != s.heatingSessionsToday ==> heating && !s.isHeating)
      && (heating && !s.isHeating ==> r.lastHeatingStart == Some(now))
      && (!(heating && !s.isHeating) ==> r.lastHeatingStart == s.lastHeatingStart)
      && (!heating && s.isHeating ==> r.lastHeatingEnd == Some(now))
      && (!(!heating && s.isHeating) ==> r.lastHeatingEnd == s.lastHeatingEnd)
      && r.totalHeatingToday == s.totalHeatingToday + (if heating then elapsed else 0.0)
      && r.totalEnergyToday == s.totalEnergyToday + (if heating then c.wattage * elapsed / 3600000.0 else 0.0)
  {
  }

  /** A 200 L, 2400 W tank at its 55 C target heating for an hour stays at 55 C
      (thermostat cap) and books 2.4 kWh and, from idle, one session. */
  lemma HeatingHourScenario(s: TankState, now: Timestamp)
    requires s.estimatedTemp == 55.0 && !s.isHeating
    ensures var c := CoordinatorConfig(200.0, 2400.0, 0.5);
      var r := Advance(c, s, true, 3600.0, now);
      && r.estimatedTemp == 55.0
      && r.totalEnergyToday == s.totalEnergyToday + 2.4
      && r.heatingSessionsToday == s.heatingSessionsToday + 1
      && r.totalHeatingToday == s.totalHeatingToday + 3600.0
  {
    var c := CoordinatorConfig(200.0, 2400.0, 0.5);
    assert ThermalMass(c) == 837200.0;
    assert HeatingRate(c) * 3600.0 > 10.0;
    assert HeatLoss(c, 55.0, 1.0) == 0.5;
  }

  // ---------------------------------------------------------------- queries

  /** `time_to_target`, in seconds: zero at or above target, `None` when the net
      rate (heating rate per hour less half the loss rate) is not positive, and
      otherwise the time at which the net rate closes the gap exactly. */
  function TimeToTarget(c: TankConfig, temp: real): (r: Option<real>)
    requires c.volume > 0.0
    ensures temp >= c.targetTemp ==> r == Some(0.0)
    ensures temp < c.targetTemp ==>
      (r.None? <==> HeatingRatePerHour(c) - c.heatLossRate / 2.0 <= 0.0)
    ensures temp < c.targetTemp && r.Some? ==>
      r.value > 0.0 && temp + (HeatingRatePerHour(c) - c.heatLossRate / 2.0) * (r.value / 3600.0) == c.targetTemp
  {
    if temp >= c.targetTemp then Some(0.0)
    else
      var needed := c.targetTemp - temp;
      var net := HeatingRatePerHour(c) - c.heatLossRate / 2.0;
      if net <= 0.0 then None
      else
        var hours := needed / net;
        assert hours * net == needed;
        Some(hours * 3600.0)
  }

  /** `time_to_cold`, in seconds: zero at or below the minimum usable
      temperature, and otherwise the time at which the loss rate, unscaled,
      brings the tank down to it. */
  function TimeToCold(c: TankConfig, temp: real): (r: real)
    requires c.heatLossRate != 0.0 || temp <= c.minTemp
    ensures temp <= c.minTemp ==> r == 0.0
    ensures temp > c.minTemp ==> temp - c.heatLossRate * (r / 3600.0) == c.minTemp
    ensures temp > c.minTemp && c.heatLossRate > 0.0 ==> r > 0.0
  {
    if temp <= c.minTemp then 0.0
    else
      var hours := (temp - c.minTemp) / c.heatLossRate;
      assert hours * c.heatLossRate == temp - c.minTemp;
      hours * 3600.0
  }

  /** From 55 C to the 40 C minimum at 0.5 C/h takes 30 hours. */
  lemma TimeToColdScenario()
    ensures TimeToCold(CoordinatorConfig(200.0, 2400.0, 0.5), 55.0) == 30.0 * 3600.0
  {
  }

  /** `energy_content`: energy stored above cold water, in kWh. */
  function EnergyContent(c: TankConfig, temp: real): (e: real)
    requires c.volume > 0.0
    ensures e >= 0.0
    ensures e == 0.0 <==> temp <= c.coldWaterTemp
    ensures temp > c.coldWaterTemp ==> e * 3600000.0 == ThermalMass(c) * (temp - c.coldWaterTemp)
  {
    var diff := temp - c.coldWaterTemp;
    if diff <= 0.0 then 0.0
    else
      assert ThermalMass(c) * diff > 0.0;
      ThermalMass(c) * diff / 3600000.0
  }

  // ---------------------------------------------------------------- showers

  /** One simulated shower of `used` litres, always by the mixing formula. */
  function ShowerStep(c: TankConfig, used: real, temp: real): real
    requires c.volume > 0.0
  {
    ((c.volume - used) * temp + used * c.coldWaterTemp) / c.volume
  }

  /** The least drop one shower causes while the tank is above the minimum. */
  function LeastShowerDrop(c: TankConfig, used: real): (d: real)
    requires c.volume > 0.0 && used > 0.0 && c.coldWaterTemp < c.minTemp
    ensures d > 0.0
  {
    used * (c.minTemp - c.coldWaterTemp) / c.volume
  }

  lemma ShowerStepDrop(c: TankConfig, used: real, temp: real)
    requires c.volume > 0.0 && used > 0.0 && c.coldWaterTemp < c.minTemp && temp > c.minTemp
    ensures temp - ShowerStep(c, used, temp) >= LeastShowerDrop(c, used)
  {
    var n := ShowerStep(c, used, temp);
    assert n * c.volume == (c.volume - used) * temp + used * c.coldWaterTemp;
    assert (temp - n) * c.volume == used * (temp - c.coldWaterTemp);
    assert used * (temp - c.coldWaterTemp) >= used * (c.minTemp - c.coldWaterTemp);
    assert (temp - n) * c.volume >= LeastShowerDrop(c, used) * c.volume;
  }

  lemma DivMonotone(x: real, y: real, d: real)
    requires x <= y && d > 0.0
    ensures x / d <= y / d
  {
    assert (x / d) * d == x && (y / d) * d == y;
  }

  lemma NonNegativeMul(a: real, b: real)
    requires a >= 0.0 && b >= 0.0
    ensures a * b >= 0.0
  {
  }

  lemma MulStrict(x: real, y: real, k: real)
    requires x < y && k > 0.0
    ensures x * k < y * k
  {
    assert y * k - x * k == (y - x) * k;
  }

  lemma DivUnique(z: real, w: real, d: real)
    requires d != 0.0 && z * d == w
    ensures z == w / d
  {
    assert (w / d) * d == w;
    assert (z - w / d) * d == 0.0;
  }

  lemma FractionBelowOne(a: real, b: real)
    requires 0.0 < a < b
    ensures 0.0 < a / b < 1.0
  {
    var q := a / b;
    assert q * b == a;
    if q >= 1.0 {
      assert false;
    }
  }

  /** How many more whole least drops fit above the minimum, for termination. */
  ghost function ShowerBudget(c: TankConfig, used: real, temp: real): nat
    requires c.volume > 0.0 && used > 0.0 && c.coldWaterTemp < c.minTemp
  {
    if temp <= c.minTemp then 0
    else ((temp - c.minTemp) / LeastShowerDrop(c, used)).Floor + 1
  }

  lemma ShowerBudgetDecreases(c: TankConfig, used: real, temp: real)
    requires c.volume > 0.0 && used > 0.0 && c.coldWaterTemp < c.minTemp && temp > c.minTemp
    ensures ShowerBudget(c, used, ShowerStep(c, used, temp)) < ShowerBudget(c, used, temp)
  {
    var d := LeastShowerDrop(c, used);
    var n := ShowerStep(c, used, temp);
    ShowerStepDrop(c, used, temp);
    if n > c.minTemp {
      assert n - c.minTemp <= (temp - c.minTemp) - d;
      DivMonotone(n - c.minTemp, (temp - c.minTemp) - d, d);
      var q := (temp - c.minTemp) / d;
      assert q * d == temp - c.minTemp;
      assert (q - 1.0) * d == (temp - c.minTemp) - d;
      DivUnique(q - 1.0, (temp - c.minTemp) - d, d);
      var x := (n - c.minTemp) / d;
      assert x <= q - 1.0;
      assert x.Floor <= q.Floor - 1;
      assert ShowerBudget(c, used, n) == x.Floor + 1;
    }
    assert ShowerBudget(c, used, temp) == ((temp - c.minTemp) / d).Floor + 1;
  }

  /** The shower count `estimated_showers_available` accumulates from `temp`
      (before display rounding): whole showers while the next one leaves the
      tank at or above the minimum, then the fraction of the last one. */
  function ShowersFrom(c: TankConfig, used: real, temp: real): (n: real)
    requires c.volume > 0.0 && used > 0.0 && c.coldWaterTemp < c.minTemp
    ensures n >= 0.0
    ensures n > 0.0 <==> temp > c.minTemp
    decreases ShowerBudget(c, used, temp)
  {
    if temp <= c.minTemp then 0.0
    else
      var next := ShowerStep(c, used, temp);
      ShowerStepDrop(c, used, temp);
      if next < c.minTemp then
        assert 0.0 < temp - c.minTemp < temp - next;
        (temp - c.minTemp) / (temp - next)
      else
        ShowerBudgetDecreases(c, used, temp);
        1.0 + ShowersFrom(c, used, next)
  }

  /** One pass of the shower loop: either the last, partial shower or one whole
      shower and the rest from the new temperature, with less budget left. */
  lemma ShowerLoopStep(c: TankConfig, used: real, temp: real, next: real)
    requires c.volume > 0.0 && used > 0.0 && c.coldWaterTemp < c.minTemp && temp > c.minTemp
    requires next == ((c.volume - used) * temp + used * c.coldWaterTemp) / c.volume
    ensures && (next < c.minTemp ==> ShowersFrom(c, used, temp) == (temp - c.minTemp) / (temp - next))
      && (next >= c.minTemp ==> ShowersFrom(c, used, temp) == 1.0 + ShowersFrom(c, used, next))
      && (next >= c.minTemp ==> ShowerBudget(c, used, next) < ShowerBudget(c, used, temp))
  {
    assert ShowerStep(c, used, temp) == ((c.volume - used) * temp + used * c.coldWaterTemp) / c.volume;
    ShowerBudgetDecreases(c, used, temp);
  }

  /** The number of whole showers in `ShowersFrom`. */
  function WholeShowers(c: TankConfig, used: real, temp: real): nat
    requires c.volume > 0.0 && used > 0.0 && c.coldWaterTemp < c.minTemp
    decreases ShowerBudget(c, used, temp)
  {
    if temp <= c.minTemp then 0
    else
      var next := ShowerStep(c, used, temp);
      if next < c.minTemp then 0
      else
        ShowerBudgetDecreases(c, used, temp);
        1 + WholeShowers(c, used, next)
  }

  /** The count is the whole showers plus a last partial one in [0, 1). */
  lemma {:induction false} ShowersSplit(c: TankConfig, used: real, temp: real)
    requires c.volume > 0.0 && used > 0.0 && c.coldWaterTemp < c.minTemp
    ensures 0.0 <= ShowersFrom(c, used, temp) - WholeShowers(c, used, temp) as real < 1.0
    decreases ShowerBudget(c, used, temp)
  {
    if temp > c.minTemp {
      var next := ShowerStep(c, used, temp);
      ShowerStepDrop(c, used, temp);
      if next < c.minTemp {
        FractionBelowOne(temp - c.minTemp, temp - next);
      } else {
        ShowerBudgetDecreases(c, used, temp);
        ShowersSplit(c, used, next);
      }
    }
  }

  /** With the default tank and shower, 55 C gives one whole shower (down to
      41 C) and then 1/9.1 of one more. */
  lemma ShowersScenario()
    ensures ShowersFrom(CoordinatorConfig(200.0, 2400.0, 0.5), 70.0, 55.0) == 1.0 + 1.0 / 9.1
  {
    var c := CoordinatorConfig(200.0, 2400.0, 0.5);
    assert ShowerStep(c, 70.0, 55.0) == 41.0;
    assert ShowerStep(c, 70.0, 41.0) == 31.9;
    assert ShowersFrom(c, 70.0, 41.0) == 1.0 / 9.1;
  }

  // ---------------------------------------------------------------- forecast

  datatype ForecastPoint = ForecastPoint(time: Timestamp, temperature: real, hour: nat)

  /** The forecast temperature `hour` hours ahead: linear loss at the full rate,
      the shower drop at 07:00 and the dishes drop at 19:00 (both computed from
      the current estimate), floored at cold water. */
  function ForecastTemp(c: TankConfig, temp: real, startHour: nat, hour: nat): (t: real)
    requires c.volume > 0.0
    ensures t >= c.coldWaterTemp
  {
    var hourOfDay := (startHour + hour) % 24;
    var t0 := temp - c.heatLossRate * hour as real;
    var t1 := if hourOfDay == 7 then t0 - UsageTempDrop(c, temp, UsageEvents["shower"]) else t0;
    var t2 := if hourOfDay == 19 then t1 - UsageTempDrop(c, temp, UsageEvents["dishes"]) else t1;
    if t2 > c.coldWaterTemp then t2 else c.coldWaterTemp
  }

  // ---------------------------------------------------------------- calibration

  /** `set_temperature`: the value clamped to [cold water, target + 10]. */
  function Calibrate(c: TankConfig, s: TankState, temp: real, now: Timestamp): (r: TankState)
    ensures r == s.(estimatedTemp := r.estimatedTemp, lastUpdate := now)
    ensures r.estimatedTemp >= c.coldWaterTemp
    ensures c.coldWaterTemp <= c.targetTemp + 10.0 ==> r.estimatedTemp <= c.targetTemp + 10.0
    ensures c.coldWaterTemp <= temp <= c.targetTemp + 10.0 ==> r.estimatedTemp == temp
    // outside the range the nearest bound is taken; the lower bound wins when they cross
    ensures c.coldWaterTemp <= c.targetTemp + 10.0 && temp > c.targetTemp + 10.0 ==> r.estimatedTemp == c.targetTemp + 10.0
    ensures temp < c.coldWaterTemp ==> r.estimatedTemp == c.coldWaterTemp
    ensures c.coldWaterTemp > c.targetTemp + 10.0 ==> r.estimatedTemp == c.coldWaterTemp
  {
    var capped := if temp < c.targetTemp + 10.0 then temp else c.targetTemp + 10.0;
    s.(estimatedTemp := if c.coldWaterTemp > capped then c.coldWaterTemp else capped, lastUpdate := now)
  }

  /** `reset_daily_stats`: the three daily counters back to zero. */
  function ResetDaily(s: TankState): (r: TankState)
    ensures r.totalHeatingToday == 0.0 && r.totalEnergyToday == 0.0 && r.heatingSessionsToday == 0
    ensures r.estimatedTemp == s.estimatedTemp && r.lastUpdate == s.lastUpdate && r.isHeating == s.isHeating
    ensures r.lastHeatingStart == s.lastHeatingStart && r.lastHeatingEnd == s.lastHeatingEnd
  {
    s.(totalHeatingToday := 0.0, totalEnergyToday := 0.0, heatingSessionsToday := 0)
  }

  // ---------------------------------------------------------------- storage

  function StampOrNull(t: Option<Timestamp>): Value {
    if t.Some? then Stamp(t.value) else Null
  }

  /** `to_dict`. */
  function TankToValue(s: TankState): Value {
    Dict(map[
      "estimated_temp" := Float(s.estimatedTemp),
      "last_update" := Stamp(s.lastUpdate),
      "last_heating_start" := StampOrNull(s.lastHeatingStart),
      "last_heating_end" := StampOrNull(s.lastHeatingEnd),
      "total_heating_today_seconds" := Float(s.totalHeatingToday),
      "total_energy_today" := Float(s.totalEnergyToday),
      "heating_sessions_today" := Int(s.heatingSessionsToday),
      "is_heating" := Bool(s.isHeating)])
  }

  /** A stored number as a real; other values are not held by the typed state. */
  function RealOf(v: Value): Result<real, PyError> {
    match v
    case Int(i) => Success(i as real)
    case Float(x) => Success(x)
    case _ => Failure(Unsupported)
  }

  /** `timedelta(seconds=v)`: a number, or TypeError. */
  function SecondsOf(v: Value): Result<real, PyError> {
    match v
    case Int(i) => Success(i as real)
    case Float(x) => Success(x)
    case Bool(b) => Success(if b then 1.0 else 0.0)
    case PosInf => Failure(Unsupported)
    case _ => Failure(TypeError)
  }

  /** `datetime.fromisoformat(v)`: a stored datetime, TypeError for a non-text. */
  function StampOf(v: Value): Result<Timestamp, PyError> {
    match v
    case Stamp(t) => Success(t)
    case Str(_) => Failure(Unsupported)
    case _ => Failure(TypeError)
  }

  /** The outcome of restoring a state: what was assigned before any error. */
  datatype Restored = Restored(state: TankState, error: Option<PyError>)

  /** An optional timestamp field: kept when the stored value is falsy, parsed otherwise. */
  function RestoreStamp(cur: Option<Timestamp>, v: Value): Result<Option<Timestamp>, PyError> {
    if !Truthy(v) then Success(cur)
    else
      match StampOf(v)
      case Success(t) => Success(Some(t))
      case Failure(e) => Failure(e)
  }

  /** `from_dict`: nothing for a falsy value; otherwise the fields in order, each
      with its default, stopping at the first one that raises. */
  function TankFromValue(s: TankState, data: Value): (r: Restored)
    ensures !Truthy(data) ==> r == Restored(s, None)
  {
    if !Truthy(data) then Restored(s, None)
    else if !data.Dict? then Restored(s, Some(AttributeError))
    else
      var d := data.entries;
      match RealOf(Get(d, "estimated_temp", Int(55)))
      case Failure(e) => Restored(s, Some(e))
      case Success(temp) =>
        var s1 := s.(estimatedTemp := temp);
        var lu := Get(d, "last_update", Null);
        var lu' := if Truthy(lu) then StampOf(lu) else Success(s.lastUpdate);
        if lu'.Failure? then Restored(s1, Some(lu'.error))
        else
          var s2 := s1.(lastUpdate := lu'.value);
          var st := RestoreStamp(s.lastHeatingStart, Get(d, "last_heating_start", Null));
          if st.Failure? then Restored(s2, Some(st.error))
          else
            var s3 := s2.(lastHeatingStart := st.value);
            var en := RestoreStamp(s.lastHeatingEnd, Get(d, "last_heating_end", Null));
            if en.Failure? then Restored(s3, Some(en.error))
            else
              var s4 := s3.(lastHeatingEnd := en.value);
              var total := SecondsOf(Get(d, "total_heating_today_seconds", Int(0)));
              if total.Failure? then Restored(s4, Some(total.error))
              else
                var s5 := s4.(totalHeatingToday := total.value);
                var energy := RealOf(Get(d, "total_energy_today", Float(0.0)));
                if energy.Failure? then Restored(s5, Some(energy.error))
                else
                  var s6 := s5.(totalEnergyToday := energy.value);
                  var sessions := Get(d, "heating_sessions_today", Int(0));
                  if !sessions.Int? then Restored(s6, Some(Unsupported))
                  else
                    var s7 := s6.(heatingSessionsToday := sessions.i);
                    var heating := Get(d, "is_heating", Bool(false));
                    if !heating.Bool? then Restored(s7, Some(Unsupported))
                    else Restored(s7.(isHeating := heating.b), None)
  }

  /** Restoring what `to_dict` wrote brings back every field, except that an
      absent optional timestamp keeps the one already in the target state. */
  lemma TankRoundTrip(s: TankState, t: TankState)
    ensures TankFromValue(t, TankToValue(s)) == Restored(
      s.(lastHeatingStart := if s.lastHeatingStart.Some? then s.lastHeatingStart else t.lastHeatingStart,
         lastHeatingEnd := if s.lastHeatingEnd.Some? then s.lastHeatingEnd else t.lastHeatingEnd),
      None)
  {
    var d := TankToValue(s).entries;
    assert "is_heating" in d;
    RestoreWrittenEntries(s, t, d);
  }

  /** Restoring from any non-empty dictionary whose keys hold what `to_dict` writes. */
  lemma RestoreWrittenEntries(s: TankState, t: TankState, d: map<string, Value>)
    requires d != map[]
    requires Get(d, "estimated_temp", Int(55)) == Float(s.estimatedTemp)
    requires Get(d, "last_update", Null) == Stamp(s.lastUpdate)
    requires Get(d, "last_heating_start", Null) == StampOrNull(s.lastHeatingStart)
    requires Get(d, "last_heating_end", Null) == StampOrNull(s.lastHeatingEnd)
    requires Get(d, "total_heating_today_seconds", Int(0)) == Float(s.totalHeatingToday)
    requires Get(d, "total_energy_today", Float(0.0)) == Float(s.totalEnergyToday)
    requires Get(d, "heating_sessions_today", Int(0)) == Int(s.heatingSessionsToday)
    requires Get(d, "is_heating", Bool(false)) == Bool(s.isHeating)
    ensures TankFromValue(t, Dict(d)) == Restored(
      s.(lastHeatingStart := if s.lastHeatingStart.Some? then s.lastHeatingStart else t.lastHeatingStart,
         lastHeatingEnd := if s.lastHeatingEnd.Some? then s.lastHeatingEnd else t.lastHeatingEnd),
      None)
  {
  }

  /** Loaded into a state with no heating timestamps, the round trip is exact. */
  lemma TankRoundTripExact(s: TankState, t: TankState)
    requires t.lastHeatingStart.None? && t.lastHeatingEnd.None?
    ensures TankFromValue(t, TankToValue(s)) == Restored(s, None)
  {
    TankRoundTrip(s, t);
  }

  // ---------------------------------------------------------------- the model object

  /** `WaterTankModel`: fixed settings and the state its methods update. */
  class Tank {
    const config: TankConfig
    var state: TankState

    constructor (config: TankConfig, now: Timestamp)
      requires ValidConfig(config)
      ensures this.config == config && state == InitialState(now)
    {
      this.config := config;
      state := InitialState(now);
    }

    /** `update_temperature`: advance by `elapsed` seconds with the heater on or off. */
    method UpdateTemperature(isHeating: bool, elapsedSeconds: real, now: Timestamp) returns (newTemp: real)
      requires ValidConfig(config)
      modifies this
      ensures state == Advance(config, old(state), isHeating, elapsedSeconds, now)
      ensures newTemp == state.estimatedTemp
    {
      var hoursElapsed := elapsedSeconds / 3600.0;
      if isHeating {
        var tempIncrease := HeatingRate(config) * elapsedSeconds;
        var tempLoss := HeatLoss(config, state.estimatedTemp, hoursElapsed);
        newTemp := state.estimatedTemp + tempIncrease - tempLoss;
        newTemp := if newTemp < config.targetTemp then newTemp else config.targetTemp;
        if !state.isHeating {
          state := state.(lastHeatingStart := Some(now), heatingSessionsToday := state.heatingSessionsToday + 1);
        }
        state := state.(totalHeatingToday := state.totalHeatingToday + elapsedSeconds);
        state := state.(totalEnergyToday := state.totalEnergyToday + (config.wattage * elapsedSeconds) / 3600000.0);
      } else {
        var tempLoss := HeatLoss(config, state.estimatedTemp, hoursElapsed);
        newTemp := state.estimatedTemp - tempLoss;
        newTemp := if newTemp > config.coldWaterTemp then newTemp else config.coldWaterTemp;
        if state.isHeating {
          state := state.(lastHeatingEnd := Some(now));
        }
      }
      state := state.(estimatedTemp := newTemp, isHeating := isHeating, lastUpdate := now);
    }

    /** `apply_usage_event`: the new temperature; unknown names change nothing. */
    method ApplyUsageEvent(eventName: string) returns (temp: real)
      requires ValidConfig(config)
      modifies this
      ensures state == ApplyUsage(config, old(state), eventName)
      ensures temp == state.estimatedTemp
    {
      if eventName !in UsageEvents {
        return state.estimatedTemp;
      }
      var event := UsageEvents[eventName];
      var tempDrop := UsageTempDrop(config, state.estimatedTemp, event);
      state := state.(estimatedTemp := state.estimatedTemp - tempDrop);
      temp := state.estimatedTemp;
    }

    /** `estimated_showers_available`, before rounding to one decimal. */
    method EstimatedShowersAvailable() returns (showers: real)
      requires ValidConfig(config) && config.coldWaterTemp < config.minTemp
      ensures showers == ShowersFrom(config, VolumeLiters(Shower), state.estimatedTemp)
      ensures showers == 0.0 <==> state.estimatedTemp <= config.minTemp
    {
      if state.estimatedTemp <= config.minTemp {
        return 0.0;
      }
      var shower := UsageEvents["shower"];
      var used := VolumeLiters(shower);
      assert used == 70.0;
      var c := config;
      var start := state.estimatedTemp;
      var currentTemp := start;
      showers := 0.0;
      while currentTemp > c.minTemp
        invariant showers + ShowersFrom(c, used, currentTemp) == ShowersFrom(c, used, start)
        decreases ShowerBudget(c, used, currentTemp)
      {
        var newTemp := ((c.volume - used) * currentTemp + used * c.coldWaterTemp) / c.volume;
        ShowerLoopStep(c, used, currentTemp, newTemp);
        if newTemp < c.minTemp {
          showers := showers + (currentTemp - c.minTemp) / (currentTemp - newTemp);
          break;
        }
        currentTemp := newTemp;
        showers := showers + 1.0;
      }
    }

    /** `get_forecast(hoursAhead)`: one point per hour 0..hoursAhead, starting at
        `now` whose local hour of day is `startHour`; the state is only read. */
    method GetForecast(hoursAhead: int, now: Timestamp, startHour: nat) returns (forecast: seq<ForecastPoint>)
      requires config.volume > 0.0
      ensures |forecast| == if hoursAhead >= 0 then hoursAhead + 1 else 0
      ensures forall h :: 0 <= h < |forecast| ==>
        forecast[h] == ForecastPoint(now + 3600.0 * h as real, ForecastTemp(config, state.estimatedTemp, startHour, h), h)
      ensures forall h :: 0 <= h < |forecast| ==> forecast[h].hour == h && forecast[h].temperature >= config.coldWaterTemp
    {
      forecast := [];
      var currentTemp := state.estimatedTemp;
      var count := if hoursAhead >= 0 then hoursAhead + 1 else 0;
      for hour := 0 to count
        invariant |forecast| == hour
        invariant forall h :: 0 <= h < hour ==>
          forecast[h] == ForecastPoint(now + 3600.0 * h as real, ForecastTemp(config, state.estimatedTemp, startHour, h), h)
      {
        var temp := currentTemp;
        temp := temp - config.heatLossRate * hour as real;
        var hourOfDay := (startHour + hour) % 24;
        if hourOfDay == 7 {
          temp := temp - UsageTempDrop(config, state.estimatedTemp, UsageEvents["shower"]);
        }
        if hourOfDay == 19 {
          temp := temp - UsageTempDrop(config, state.estimatedTemp, UsageEvents["dishes"]);
        }
        temp := if temp > config.coldWaterTemp then temp else config.coldWaterTemp;
        forecast := forecast + [ForecastPoint(now + 3600.0 * hour as real, temp, hour)];
      }
    }

    /** `reset_daily_stats`. */
    method ResetDailyStats()
      modifies this
      ensures state == ResetDaily(old(state))
    {
      state := state.(totalHeatingToday := 0.0);
      state := state.(totalEnergyToday := 0.0);
      state := state.(heatingSessionsToday := 0);
    }

    /** `set_temperature`: manual calibration, clamped. */
    method SetTemperature(temp: real, now: Timestamp)
      modifies this
      ensures state == Calibrate(config, old(state), temp, now)
    {
      var capped := if temp < config.targetTemp + 10.0 then temp else config.targetTemp + 10.0;
      state := state.(estimatedTemp := if config.coldWaterTemp > capped then config.coldWaterTemp else capped);
      state := state.(lastUpdate := now);
    }

    /** `from_dict`: restore the state field by field; an error leaves the
        fields assigned before it in place and is returned. */
    method FromDict(data: Value) returns (error: Option<PyError>)
      modifies this
      ensures TankFromValue(old(state), data) == Restored(state, error)
    {
      var r := TankFromValue(state, data);
      state := r.state;
      error := r.error;
    }
  }
}
