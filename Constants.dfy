/** The enumerations and default settings of the integration, with the text
    values they are stored under. */
module Constants {
  import opened Values

  // Threshold defaults
  const DEFAULT_MIN_SOC: int := 70
  const DEFAULT_STOP_SOC: int := 50
  const DEFAULT_MIN_SOLAR_POWER: int := 2500
  const DEFAULT_CHECK_INTERVAL: int := 60            // seconds
  const DEFAULT_MIN_DAILY_HEATING_TIME: int := 60    // minutes
  const DEFAULT_MAX_DAILY_HEATING_TIME: int := 180   // minutes

  // Water tank defaults
  const DEFAULT_TANK_VOLUME: real := 200.0           // litres
  const DEFAULT_HEATER_WATTAGE: real := 2400.0       // watts
  const DEFAULT_TANK_HEAT_LOSS_RATE: real := 0.5     // degrees C per hour
  const DEFAULT_SHOWER_DURATION: real := 10.0        // minutes
  const DEFAULT_SHOWER_FLOW_RATE: real := 10.0       // litres per minute
  const DEFAULT_DISH_DURATION: real := 10.0          // minutes
  const DEFAULT_DISH_FLOW_RATE: real := 6.0          // litres per minute
  const DEFAULT_COLD_WATER_TEMP: real := 15.0
  const DEFAULT_TARGET_TEMP: real := 55.0
  const DEFAULT_MIN_TEMP: real := 40.0
  const DEFAULT_AMBIENT_TEMP: real := 20.0

  // Time windows
  const DEFAULT_OFFPEAK_START: string := "22:00"
  const DEFAULT_OFFPEAK_END: string := "06:00"
  const DEFAULT_SOLAR_START: string := "10:00"
  const DEFAULT_SOLAR_END: string := "17:00"

  // Configuration keys read by the decision cycle
  const CONF_OFFPEAK_START: string := "offpeak_start"
  const CONF_OFFPEAK_END: string := "offpeak_end"

  // Events
  const DOMAIN: string := "solar_router"
  const EVENT_HEATING_STARTED: string := DOMAIN + "_heating_started"
  const EVENT_HEATING_STOPPED: string := DOMAIN + "_heating_stopped"
  const EVENT_RULE_TRIGGERED: string := DOMAIN + "_rule_triggered"

  datatype HeatingMode = Off | Auto | SolarOnly | Forced | Offpeak

  function HeatingModeText(m: HeatingMode): string {
    match m
    case Off => "off"
    case Auto => "auto"
    case SolarOnly => "solar_only"
    case Forced => "forced"
    case Offpeak => "offpeak"
  }

  /** `HeatingMode(v)`: ValueError unless `v` is one of the mode texts. */
  function HeatingModeOf(v: Value): (r: Result<HeatingMode, PyError>)
    ensures r.Success? ==> v == Str(HeatingModeText(r.value))
    ensures r.Failure? ==> r.error == ValueError
    ensures forall m :: v == Str(HeatingModeText(m)) ==> r == Success(m)
  {
    if v == Str("off") then Success(Off)
    else if v == Str("auto") then Success(Auto)
    else if v == Str("solar_only") then Success(SolarOnly)
    else if v == Str("forced") then Success(Forced)
    else if v == Str("offpeak") then Success(Offpeak)
    else Failure(ValueError)
  }

  datatype ConditionKind =
    | BatterySocAbove | BatterySocBelow
    | SolarPowerAbove | SolarPowerBelow
    | GridExportAbove | GridImportAbove
    | TankTempAbove | TankTempBelow
    | TimeBetween
    | DailyHeatingBelow | DailyHeatingAbove
    | OffpeakHours

  function ConditionKindText(k: ConditionKind): string {
    match k
    case BatterySocAbove => "battery_soc_above"
    case BatterySocBelow => "battery_soc_below"
    case SolarPowerAbove => "solar_power_above"
    case SolarPowerBelow => "solar_power_below"
    case GridExportAbove => "grid_export_above"
    case GridImportAbove => "grid_import_above"
    case TankTempAbove => "tank_temp_above"
    case TankTempBelow => "tank_temp_below"
    case TimeBetween => "time_between"
    case DailyHeatingBelow => "daily_heating_below"
    case DailyHeatingAbove => "daily_heating_above"
    case OffpeakHours => "offpeak_hours"
  }

  /** `RuleConditionType(v)`: ValueError unless `v` is one of the kind texts. */
  function ConditionKindOf(v: Value): (r: Result<ConditionKind, PyError>)
    ensures r.Success? ==> v == Str(ConditionKindText(r.value))
    ensures r.Failure? ==> r.error == ValueError
    ensures forall k :: v == Str(ConditionKindText(k)) ==> r == Success(k)
  {
    if v == Str("battery_soc_above") then Success(BatterySocAbove)
    else if v == Str("battery_soc_below") then Success(BatterySocBelow)
    else if v == Str("solar_power_above") then Success(SolarPowerAbove)
    else if v == Str("solar_power_below") then Success(SolarPowerBelow)
    else if v == Str("grid_export_above") then Success(GridExportAbove)
    else if v == Str("grid_import_above") then Success(GridImportAbove)
    else if v == Str("tank_temp_above") then Success(TankTempAbove)
    else if v == Str("tank_temp_below") then Success(TankTempBelow)
    else if v == Str("time_between") then Success(TimeBetween)
    else if v == Str("daily_heating_below") then Success(DailyHeatingBelow)
    else if v == Str("daily_heating_above") then Success(DailyHeatingAbove)
    else if v == Str("offpeak_hours") then Success(OffpeakHours)
    else Failure(ValueError)
  }

  datatype ActionKind = TurnOnHeater | TurnOffHeater | SetHeatingMode

  function ActionKindText(k: ActionKind): string {
    match k
    case TurnOnHeater => "turn_on_heater"
    case TurnOffHeater => "turn_off_heater"
    case SetHeatingMode => "set_heating_mode"
  }

  /** `RuleActionType(v)`: ValueError unless `v` is one of the action texts. */
  function ActionKindOf(v: Value): (r: Result<ActionKind, PyError>)
    ensures r.Success? ==> v == Str(ActionKindText(r.value))
    ensures r.Failure? ==> r.error == ValueError
    ensures forall k :: v == Str(ActionKindText(k)) ==> r == Success(k)
  {
    if v == Str("turn_on_heater") then Success(TurnOnHeater)
    else if v == Str("turn_off_heater") then Success(TurnOffHeater)
    else if v == Str("set_heating_mode") then Success(SetHeatingMode)
    else Failure(ValueError)
  }
}
