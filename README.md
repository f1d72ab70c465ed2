# infobat battery-state core in Dafny

This project models the battery-tracking core of the infobat Android app and
proves properties about it:

- **`Bateria`** is the battery record. Each setter stores a new value and
  raises the "modified" flag only when the value really changed. `reiniciar`
  is the only thing that clears the flag. The static `getNivel` turns a raw
  level and a scale into a percentage, using Java `int` arithmetic.
- **`InfoActivity.Receptor`** is the broadcast receiver that feeds battery
  intents into a `Bateria`. It fixes the technology and the scale on the
  first intent. It updates presence on every intent and the other attributes
  only while a battery is present. It notifies the activity (`onCambio`)
  exactly when the record changed.
- **`ServicioBateria`** is the widget's background service. It derives the
  level and the charging state from the battery intent, chooses the widget's
  background from them, and registers and cancels its two broadcast
  receivers idempotently. The `bInicializar` flag makes the start command
  that follows `onCreate` a no-op.
- **`CadenasBateria`** holds three code-to-label tables. It refills them only
  when the display language changes. Health and status lookups have no
  fallback. The connection lookup falls back to the "disconnected" label.

Modules:

- `JavaLang` (`java_lang.dfy`): what the model needs from Java:
  - the 32-bit `int`, with explicit wrap-around
  - `/`, which truncates toward zero
  - `null` references, as `Option`
  - `Integer.toString`, proved to round-trip through a decimal reader
- `Android` (`android.dfy`):
  - the `BatteryManager` constants
  - the extras of a battery intent, each possibly absent
  - the broadcast actions the service listens for
- `Bateria` (`bateria.dfy`): the `Bateria` class and `getNivel`.
- `InfoActivity` (`info_activity.dfy`): the `Receptor` class.
  - Value functions (`Recibir` and its parts) specify it.
  - `onCambio` becomes a ghost log, `avisos`, of the attributes each call was shown.
- `ServicioBateria` (`servicio_bateria.dfy`): the service class.
  - The platform's receiver registry becomes a ghost log, `registros`, of register and unregister calls.
  - A widget update becomes a `Vista` value: widget id, background and text.
- `CadenasBateria` (`cadenas_bateria.dfy`): the label tables.
  - The localized strings are opaque values of a type parameter. `cargar` receives them as a `Textos` record instead of reading the resources.
  - The static instance slot is the class `Proceso`.

Where the documented behaviour and the code differ, the model follows the code:

- `getSalud` and `getEstado` have no fallback label: an unknown code yields `null`.
- `getConexion` yields `null` before the first `cargar`, because the "disconnected" label has not been loaded yet.
- `setTecnologia` ignores only `null`. An empty technology string is stored like any other.
- The widget's level bands compare with `<`, and the code tests the warning band before the danger band. Only `FondoTalCual` keeps that order. `ActualizarWidget` and the service methods built on it (`ActualizarWidgets`, `ActualizarWidgetEstatico`, `OnStartCommand`, `OnCreate`, `CicloDeVida`) use the corrected `ElegirFondo`, so an unplugged level below 15 gets the danger background there (see Findings).
- Defaults differ between two places:
  - The receiver's default status for an intent without one is `0`.
  - A fresh `Bateria` starts with status `BATTERY_STATUS_UNKNOWN` (`1`).

## Model

| member | source | states |
|---|---|---|
| JavaLang.Wrap | source/src/es/jafs/infobat/clases/Bateria.java:111 | a Java `int` product equals the exact product when that is in range, and differs from it by a multiple of 2^32 otherwise |
| JavaLang.Div | source/src/es/jafs/infobat/clases/Bateria.java:111 | Java `/` by a positive divisor truncates toward zero: the quotient times the divisor lies within one divisor of the dividend, on the zero side |
| JavaLang.Digits | source/src/es/jafs/infobat/widget/ServicioBateria.java:166 | the decimal digits of a natural number are non-empty, all digits, and have no leading zero |
| JavaLang.ToString | source/src/es/jafs/infobat/widget/ServicioBateria.java:166 | `Integer.toString` is non-empty and starts with `-` exactly for negative numbers |
| JavaLang.DigitsValueOfDigits | source/src/es/jafs/infobat/widget/ServicioBateria.java:166 | the value of the digits of `n` is `n` |
| JavaLang.ParseToString | source/src/es/jafs/infobat/widget/ServicioBateria.java:166 | parsing `Integer.toString(n)` gives back `n` for every integer |
| Bateria.GetNivel | source/src/es/jafs/infobat/clases/Bateria.java:107-117 | a non-positive scale returns the raw level unchanged. Otherwise, without overflow, the result is `level*100/scale` truncated toward zero. A level between 0 and the scale gives 0..100, and a full level gives 100 |
| Bateria.CotasPorcentaje | source/src/es/jafs/infobat/clases/Bateria.java:111 | the truncated quotient of `level*100` by a scale at least the level lies in 0..100, and is 100 when level equals scale |
| Bateria.Temperatura | source/src/es/jafs/infobat/clases/Bateria.java:125 | the temperature times 10 is the reading in tenths of a degree |
| Bateria.Voltaje | source/src/es/jafs/infobat/clases/Bateria.java:148 | the voltage times 1000 is the reading in millivolts |
| Bateria.TemperaturaInyectiva | source/src/es/jafs/infobat/clases/Bateria.java:124-131 | two readings give equal temperatures iff they are equal, so change detection on the temperature is change detection on the reading |
| Bateria.VoltajeInyectivo | source/src/es/jafs/infobat/clases/Bateria.java:147-154 | two readings give equal voltages iff they are equal |
| Bateria.Bateria.constructor | source/src/es/jafs/infobat/clases/Bateria.java:27-44 | a fresh record has health UNKNOWN, level 0, connection 0, temperature and voltage 0, not present, status UNKNOWN, technology "" and is not modified |
| Bateria.Bateria.SetConectada | source/src/es/jafs/infobat/clases/Bateria.java:51-56 | only the connection changes, to the argument; the flag becomes old flag or (old value differs) |
| Bateria.Bateria.SetNivel | source/src/es/jafs/infobat/clases/Bateria.java:73-80 | only the level changes, to `getNivel(level, scale)`; the flag is raised iff that differs from the old level |
| Bateria.Bateria.GetNivelString | source/src/es/jafs/infobat/clases/Bateria.java:96-98 | the text ends in `%` and what precedes it parses back to the level |
| Bateria.Bateria.SetTemperatura | source/src/es/jafs/infobat/clases/Bateria.java:124-131 | only the temperature changes, to reading/10; the flag is raised iff the temperature differs |
| Bateria.Bateria.SetVoltaje | source/src/es/jafs/infobat/clases/Bateria.java:147-154 | only the voltage changes, to reading/1000; the flag is raised iff the voltage differs |
| Bateria.Bateria.SetSalud | source/src/es/jafs/infobat/clases/Bateria.java:179-184 | only the health changes, to the argument; the flag is raised iff the health code changed |
| Bateria.Bateria.SetPresente | source/src/es/jafs/infobat/clases/Bateria.java:200-205 | only presence changes, to the argument; the flag is raised iff presence changed |
| Bateria.Bateria.SetEstado | source/src/es/jafs/infobat/clases/Bateria.java:221-226 | only the status changes, to the argument; the flag is raised iff the status changed |
| Bateria.Bateria.SetTecnologia | source/src/es/jafs/infobat/clases/Bateria.java:242-247 | `null` changes nothing; a string is stored and raises the flag iff it differs from the current technology |
| Bateria.Bateria.Reiniciar | source/src/es/jafs/infobat/clases/Bateria.java:263-273 | the flag is cleared and no attribute changes |
| InfoActivity.TrasCargaInicial | source/src/es/jafs/infobat/activities/InfoActivity.java:182-187 | a null intent changes nothing; otherwise the scale becomes the intent's (100 if absent), the technology becomes the intent's when it carries one (kept otherwise), and nothing else changes |
| InfoActivity.TrasObtenerDatos | source/src/es/jafs/infobat/activities/InfoActivity.java:194-208 | the battery is present iff the intent is non-null and says so; when absent only presence changes; the technology never changes |
| InfoActivity.Recibir | source/src/es/jafs/infobat/activities/InfoActivity.java:169-175 | after any intent the receiver is past its first intent; after the first intent neither the scale nor the technology ever changes |
| InfoActivity.ObtenerDatosIdempotente | source/src/es/jafs/infobat/activities/InfoActivity.java:194-208 | ingesting the same intent a second time changes no attribute |
| InfoActivity.RecibirDosVeces | source/src/es/jafs/infobat/activities/InfoActivity.java:169-214 | delivering the same intent twice leaves the receiver as one delivery does |
| InfoActivity.EscalaCacheada | source/src/es/jafs/infobat/activities/InfoActivity.java:169-199 | after the first intent the level is computed with the cached scale, whatever scale the intent carries |
| InfoActivity.IntentNulo | source/src/es/jafs/infobat/activities/InfoActivity.java:206-208 | a null intent only marks the battery absent |
| InfoActivity.AusenteNoActualiza | source/src/es/jafs/infobat/activities/InfoActivity.java:196-205 | an intent without a present battery leaves level, connection, health, temperature, voltage and status as they were |
| InfoActivity.ValoresPorDefecto | source/src/es/jafs/infobat/activities/InfoActivity.java:196-204 | missing extras default to level 0, plugged 0, health 1, temperature 0, voltage 0, status 0 |
| InfoActivity.Receptor.constructor | source/src/es/jafs/infobat/activities/InfoActivity.java:155-160 | a fresh receiver has a fresh record, scale 100, is awaiting its first intent and has notified nothing |
| InfoActivity.Receptor.OnReceive | source/src/es/jafs/infobat/activities/InfoActivity.java:169-175 | the receiver's new state is `Recibir` of the old; `onCambio` is called once, with the new attributes, iff some attribute changed; the flag is left cleared |
| InfoActivity.Receptor.CargaInicial | source/src/es/jafs/infobat/activities/InfoActivity.java:182-187 | the receiver's new state is `TrasCargaInicial` of the old, with the flag raised iff the technology changed |
| InfoActivity.Receptor.ObenerDatos | source/src/es/jafs/infobat/activities/InfoActivity.java:194-214 | the attributes become `TrasObtenerDatos` of the old; `onCambio` is called iff the record was modified; the flag is false on return |
| InfoActivity.Receptor.OnCambio | source/src/es/jafs/infobat/activities/InfoActivity.java:211 | the activity is notified once with the current attributes |
| InfoActivity.MismaInstantaneaDosVeces | source/src/es/jafs/infobat/activities/InfoActivity.java:194-214 | of two deliveries of the same intent, the first leaves the receiver in state `Recibir` of the old one and notifies the activity once with the new attributes exactly when they changed; the second does not notify it at all |
| ServicioBateria.FondoTalCual | source/src/es/jafs/infobat/widget/ServicioBateria.java:156-164 | the chain as written: charging iff connected; unplugged below 30 gives warning, otherwise normal; danger is never chosen |
| ServicioBateria.ElegirFondo | source/src/es/jafs/infobat/widget/ServicioBateria.java:156-164 | the intended chain: charging iff connected; unplugged, danger iff below 15, warning iff 15..29, normal iff at least 30 |
| ServicioBateria.FondoTalCualDifiere | source/src/es/jafs/infobat/widget/ServicioBateria.java:158-161 | the written and the intended chain differ exactly for an unplugged level below 15, where the written one shows warning |
| ServicioBateria.PeligroInalcanzable | source/src/es/jafs/infobat/widget/ServicioBateria.java:158-161 | unplugged at level 5: the written chain gives warning, the intended one danger |
| ServicioBateria.Cargando | source/src/es/jafs/infobat/widget/ServicioBateria.java:121-122 | the battery counts as charging only below 100% and only with a positive plug code |
| ServicioBateria.ServicioBateria.constructor | source/src/es/jafs/infobat/widget/ServicioBateria.java:26-34 | no receivers, not charging, level -1, initialisation pending, nothing registered |
| ServicioBateria.ServicioBateria.RegistrarBateria | source/src/es/jafs/infobat/widget/ServicioBateria.java:49-61 | a battery receiver is registered afterwards; it is created and registered for the three battery actions only if none was, otherwise nothing changes |
| ServicioBateria.ServicioBateria.RegistrarPantalla | source/src/es/jafs/infobat/widget/ServicioBateria.java:67-78 | a screen receiver is registered afterwards; it is created and registered for screen on/off only if none was, otherwise nothing changes |
| ServicioBateria.ServicioBateria.CancelarBateria | source/src/es/jafs/infobat/widget/ServicioBateria.java:84-90 | no battery receiver afterwards; the old one is unregistered only if there was one, otherwise nothing changes |
| ServicioBateria.ServicioBateria.CancelarPantalla | source/src/es/jafs/infobat/widget/ServicioBateria.java:96-102 | no screen receiver afterwards; the old one is unregistered only if there was one, otherwise nothing changes |
| ServicioBateria.ServicioBateria.RecibirBateria | source/src/es/jafs/infobat/widget/ServicioBateria.java:109-123 | a null intent is replaced by the sticky one; the level is `getNivel(level or 0, scale or 100)`; charging iff plug code > 0 and level < 100 |
| ServicioBateria.ServicioBateria.ActualizarWidget | source/src/es/jafs/infobat/widget/ServicioBateria.java:145-168 | the widget gets the background of the intended chain and a text that parses back to the level |
| ServicioBateria.ServicioBateria.ActualizarWidgets | source/src/es/jafs/infobat/widget/ServicioBateria.java:175-182 | one update per widget id, in order, each with the background and level text of `ActualizarWidget` |
| ServicioBateria.ServicioBateria.ActualizarWidgetEstatico | source/src/es/jafs/infobat/widget/ServicioBateria.java:131-136 | the state is refreshed from the sticky intent, then the widget gets the intended background and a text that parses back to the refreshed level |
| ServicioBateria.ServicioBateria.OnStartCommand | source/src/es/jafs/infobat/widget/ServicioBateria.java:214-227 | returns START_STICKY and leaves initialisation pending; when it was pending, both receivers end registered (screen first, each registered only if missing) and every widget gets an update with the intended background and the level's text; otherwise nothing else changes |
| ServicioBateria.ServicioBateria.OnCreate | source/src/es/jafs/infobat/widget/ServicioBateria.java:190-193 | registers what is missing (screen first), updates every widget with the intended background and the level's text, and clears the initialisation flag |
| ServicioBateria.ServicioBateria.OnDestroy | source/src/es/jafs/infobat/widget/ServicioBateria.java:200-204 | no receiver is left registered: the screen receiver, then the battery receiver, is unregistered only if it was held; the level, charging state and initialisation flag are kept |
| ServicioBateria.CicloDeVida | source/src/es/jafs/infobat/widget/ServicioBateria.java:190-227 | create then start twice: creation updates every widget id in order, the first start updates none, the second updates every widget id again with the same background; since no battery intent has arrived, every update shows level -1 on the unplugged background; only two registrations ever happen |
| CadenasBateria.TablaSalud | source/src/es/jafs/infobat/clases/CadenasBateria.java:53-58 | a reload's health table has exactly the six health codes |
| CadenasBateria.TablaConexion | source/src/es/jafs/infobat/clases/CadenasBateria.java:60-61 | a reload's connection table has exactly the AC and USB codes |
| CadenasBateria.TablaEstado | source/src/es/jafs/infobat/clases/CadenasBateria.java:63-67 | a reload's status table has exactly the five status codes |
| CadenasBateria.TablasCompletas | source/src/es/jafs/infobat/clases/CadenasBateria.java:53-67 | putting a reload's entries over tables holding no other codes leaves exactly the reload's tables |
| CadenasBateria.CadenasBateria.constructor | source/src/es/jafs/infobat/clases/CadenasBateria.java:19-39 | a fresh instance has no language, empty tables and no "disconnected" label |
| CadenasBateria.CadenasBateria.Cargar | source/src/es/jafs/infobat/clases/CadenasBateria.java:46-69 | an empty or unchanged language changes nothing. Otherwise the language is stored and every label is put into its table. The health, connection and status tables then hold exactly their codes |
| CadenasBateria.CadenasBateria.PonerSalud | source/src/es/jafs/infobat/clases/CadenasBateria.java:53-58 | the six health `put`s add the reload's health entries |
| CadenasBateria.CadenasBateria.PonerConexion | source/src/es/jafs/infobat/clases/CadenasBateria.java:60-61 | the two connection `put`s add the reload's connection entries |
| CadenasBateria.CadenasBateria.PonerEstado | source/src/es/jafs/infobat/clases/CadenasBateria.java:63-67 | the five status `put`s add the reload's status entries |
| CadenasBateria.CadenasBateria.GetEstado | source/src/es/jafs/infobat/clases/CadenasBateria.java:90-92 | `null` iff the code is not in the table; after a reload, a label exactly for the five status codes, the one loaded for it |
| CadenasBateria.CadenasBateria.GetSalud | source/src/es/jafs/infobat/clases/CadenasBateria.java:100-102 | `null` iff the code is not in the table; after a reload, a label exactly for the six health codes, the one loaded for it |
| CadenasBateria.CadenasBateria.GetConexion | source/src/es/jafs/infobat/clases/CadenasBateria.java:110-117 | the table's label for AC or USB, the "disconnected" label for any other code; `null` before the first reload |
| CadenasBateria.CargarDosVeces | source/src/es/jafs/infobat/clases/CadenasBateria.java:46-69 | a second `cargar` with the same language changes nothing: the tables are those of the first reload (or the earlier ones if the language was already current) |
| CadenasBateria.Proceso.constructor | source/src/es/jafs/infobat/clases/CadenasBateria.java:21 | the static instance slot starts empty |
| CadenasBateria.Proceso.GetInstancia | source/src/es/jafs/infobat/clases/CadenasBateria.java:76-82 | the first call creates a fresh, empty instance and stores it; every later call returns that same instance |

## Left out

- Bateria.GetNivel: when `level * 100` overflows a Java `int`, the quotient is computed from the wrapped product, but the contract pins the result down only for levels whose product fits (|level| <= 21474836).
- Bateria.Temperatura, Bateria.Voltaje and the setters that use them compute with exact reals (reading/10, reading/1000) rather than `float`. Float rounding is not modelled, so change detection on the temperature and voltage is exact.
- `getVoltajeString` and `Utiles.celsiusToFarhenheit` are not modelled: they only format or convert floating-point values.
- The getters of `Bateria` (`getConectada`, `getNivel()`, `getTemperatura`, `getVoltaje`, `getSalud`, `isPresente`, `getEstado`, `getTecnologia`, `isModificada`) are plain field reads of the class.
- `InfoActivity`'s own lifecycle and view code (`onCreate`, `onResume`, `onStop`, the rendering in `onCambio`) are not modelled. `onCambio` is reduced to the ghost log `avisos` of what it was shown.
- ServicioBateria.ServicioBateria.RegistrarBateria and the other register and cancel methods do not model the platform's `registerReceiver`/`unregisterReceiver` effects. They are recorded in the ghost log `registros` instead.
- ServicioBateria.ServicioBateria.RecibirBateria: the sticky battery intent is a parameter. A platform that returns no sticky intent, which would make the Java code throw, is not modelled.
- ServicioBateria.ServicioBateria.ActualizarWidget: `RemoteViews`, `AppWidgetManager` and the click `PendingIntent` are not modelled. An update is a `Vista` value.
- ServicioBateria.ServicioBateria.ActualizarWidget uses the intended background chain. The chain as written is modelled as `FondoTalCual` (see Findings).
- ServicioBateria.ServicioBateria.ActualizarWidgets: the widget ids come from `AppWidgetManager` and are a parameter.
- ServicioBateria.ServicioBateria.ActualizarWidgetEstatico: the static slot `objInstancia` is not modelled. The method is the branch where the service instance exists; the `null` branch does nothing.
- ServicioBateria.ServicioBateria.OnStartCommand: the intent, flags and start-id arguments are unused by the code and are left out. So is the assignment of the static instance slot.
- `onBind` is not modelled: it always returns `null`.
- `WidgetBateria`, `ReceptorBateria` and `ReceptorPantalla` are not part of this model: they only choose which service method to call.
- CadenasBateria.CadenasBateria.Cargar:
  - The language (`locale.getLanguage()`) and the localized strings (`getString`) are read from the platform's resources; here they are parameters, and the strings are opaque values.
  - The static `sActual` is a field of the single instance.

## Findings

| source | as written | input that shows it | evidently intended | confidence | as-written member | corrected member |
|---|---|---|---|---|---|---|
| source/src/es/jafs/infobat/widget/ServicioBateria.java:158-161 | the background chain tests `iNivelBateria < NVL_WARNING` (30) before `iNivelBateria < NVL_DANGER` (15), so the danger background is never chosen | unplugged battery at level 5: the warning background is shown | unplugged levels below 15 show the danger background and levels 15..29 the warning background | high; not executed | ServicioBateria.FondoTalCual, ServicioBateria.PeligroInalcanzable | ServicioBateria.ElegirFondo |
