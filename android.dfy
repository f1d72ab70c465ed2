/** The platform values the core reads: the `BatteryManager` codes, the extras
    of a battery-changed `Intent`, and the broadcast actions receivers are
    registered for. */
module Android {
  import opened JavaLang

  const BATTERY_HEALTH_UNKNOWN: int32 := 1
  const BATTERY_HEALTH_GOOD: int32 := 2
  const BATTERY_HEALTH_OVERHEAT: int32 := 3
  const BATTERY_HEALTH_DEAD: int32 := 4
  const BATTERY_HEALTH_OVER_VOLTAGE: int32 := 5
  const BATTERY_HEALTH_UNSPECIFIED_FAILURE: int32 := 6

  const BATTERY_STATUS_UNKNOWN: int32 := 1
  const BATTERY_STATUS_CHARGING: int32 := 2
  const BATTERY_STATUS_DISCHARGING: int32 := 3
  const BATTERY_STATUS_NOT_CHARGING: int32 := 4
  const BATTERY_STATUS_FULL: int32 := 5

  const BATTERY_PLUGGED_AC: int32 := 1
  const BATTERY_PLUGGED_USB: int32 := 2

  /** `Service.START_STICKY`. */
  const START_STICKY: int32 := 1

  /** The extras of a battery-changed broadcast; `None` is an absent extra,
      which `getIntExtra`/`getBooleanExtra` replace by the caller's default
      and `getStringExtra` returns as `null`. */
  datatype Intent = Intent(
    level: Option<int32>,
    scale: Option<int32>,
    plugged: Option<int32>,
    health: Option<int32>,
    temperature: Option<int32>,
    voltage: Option<int32>,
    status: Option<int32>,
    present: Option<bool>,
    technology: Option<string>)

  /** Broadcast actions that appear in the receivers' intent filters. */
  datatype Accion = BatteryChanged | PowerConnected | PowerDisconnected | ScreenOn | ScreenOff
}
