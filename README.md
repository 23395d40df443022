# Dashboard state machine of the cloth-drying monitor

This project models the dashboard page of a small IoT panel
(`src/app/dashboard/page.js`). It mirrors two realtime-store paths
(`sensors`, `controls`) and resolves the signed-in user's role from a profile
record. It shows the admin's control toggles behind a role gate, and it
overlays a forecast fetched by a geocode lookup followed by a forecast lookup.
The page is modelled as an event-driven state machine. Session notifications,
store pushes, typing, clicks and HTTP replies are events. Store reads and
writes, sign-out, navigation and HTTP requests are emitted actions.

Modules:

- `JsValues`: the JavaScript value semantics the page's expressions rely on:
  truthiness, `?.` and `.` access (the latter throws on `null`/`undefined`),
  `??`, template-literal text and the numeric conversion behind `<=` and `>`.
- `Forecast`: one weather run. Its stages are geocoding, forecasting and
  settled. Its outcomes are abstract, and every throwing path is one failure.
- `Display`: the sensor cards, the day/night threshold (300, inclusive), the
  rain-probability icon (above 50), the ON/OFF captions and the `"admin"` gate.
  `Render` reports a throwing render as an outcome. Two things throw: with role
  `"admin"` and a `null` controls snapshot, `controls.system` throws a
  TypeError, and a stored forecast field that is a plain object cannot be
  printed as a React child. A render that throws ends the component, so no
  later event has any effect.
- `DashboardPage`: the page state, one function per event, `Step`/`Run` over
  event sequences, trace lemmas, and the class `Dashboard`. The class holds
  the component's state variables. Its methods overwrite those variables, and
  each method is proved to agree with the event function.

Behaviour kept as the code has it:

- The role is never cleared, neither on sign-out nor on logout.
- A city change does not clear the shown forecast.
- Weather runs are never cancelled, so the last successful reply wins,
  whichever city it was for.
- The control buttons call `toggle(key)` without a value, so the write they
  emit carries `undefined`.
- The sensor and control subscriptions are never released.

## Model

| member | source | states |
|---|---|---|
| `JsValues.OptionalMember` | src/app/dashboard/page.js:101-107 | `v?.key` is an object's own property value when present, and undefined for a nullish base, a primitive or a missing property |
| `JsValues.Member` | src/app/dashboard/page.js:121 | `v.key` throws exactly on a nullish base and otherwise agrees with `v?.key` |
| `JsValues.Coalesce` | src/app/dashboard/page.js:101-102 | `a ?? b` is `b` exactly when `a` is null or undefined, else `a` |
| `JsValues.Truthy` | src/app/dashboard/page.js:103 | the falsy values are exactly undefined, null, false, 0 and "" |
| `JsValues.ToNumber` | src/app/dashboard/page.js:109 | NaN exactly for undefined, a plain object or non-numeric text; null gives 0, false 0, true 1, a number itself, and a text the number it spells |
| `JsValues.LessOrEqual` | src/app/dashboard/page.js:109 | `v <= k` is false when `v` converts to NaN, and compares the converted number otherwise |
| `JsValues.Greater` | src/app/dashboard/page.js:151 | `v > k` is the negation of `v <= k` for a number, and false along with it for NaN |
| `JsValues.Stringify` | src/app/dashboard/page.js:101-102 | a template literal prints a string as itself, an integer as its canonical numeral (no leading zero, "-" for negatives) that reads back as that integer, and "true", "false", "null", "undefined", "[object Object]" for the rest |
| `JsValues.StringifyDashes` | src/app/dashboard/page.js:101-102 | only the string "--" interpolates to "--" |
| `Display.CardText` | src/app/dashboard/page.js:101-102 | a card shows "--" plus its unit for null/undefined and the value's text plus its unit otherwise |
| `Display.CardPlaceholderExactly` | src/app/dashboard/page.js:101-102 | a temperature/humidity card shows the placeholder exactly when the value is nullish (or the text "--"); 0 shows as 0 |
| `Display.TemperatureText` | src/app/dashboard/page.js:101 | the temperature card is "-- °C" exactly when `sensors?.temperature` is nullish (or "--"), else the value's text in °C |
| `Display.HumidityText` | src/app/dashboard/page.js:102 | the humidity card is "-- %" exactly when `sensors?.humidity` is nullish (or "--"), else the value's text in % |
| `Display.RainText` | src/app/dashboard/page.js:103 | the rain card reads YES exactly when `sensors?.rain` is truthy, NO otherwise |
| `Display.DaylightText` | src/app/dashboard/page.js:104-113 | "--" exactly while `ldr` is undefined; otherwise DAY when `ldr <= 300` holds and NIGHT when it does not (NaN included) |
| `Display.DaylightThresholdInclusive` | src/app/dashboard/page.js:107-111 | for an integer `ldr`, DAY iff `ldr <= 300`: 300 is DAY, 301 is NIGHT |
| `Display.DaylightFromText` | src/app/dashboard/page.js:107-111 | a light level stored as decimal text compares as its number: "300" is DAY, "301" NIGHT |
| `Display.RainIcon` | src/app/dashboard/page.js:151 | the rain icon shows exactly when `rainProb > 50` holds, the sun otherwise |
| `Display.ToggleLabel` | src/app/dashboard/page.js:178-181 | a toggle reads ON exactly when its flag is truthy, OFF otherwise |
| `Display.ControlsVisible` | src/app/dashboard/page.js:117 | the gate `role === "admin"` opens for the string "admin" and for no other value |
| `Display.ControlsSection` | src/app/dashboard/page.js:117-135 | the section throws exactly for an admin with nullish controls; it is present exactly for role "admin"; it then holds System, Servo 1, Servo 2 with captions from their flags |
| `Display.WeatherPanel` | src/app/dashboard/page.js:145-156 | "loading" exactly when no forecast is stored; otherwise time, temperature, probability and the icon of the stored sample; throws exactly when a stored field is a plain object |
| `Display.Render` | src/app/dashboard/page.js:99-157 | the page throws exactly for an admin with nullish controls or a forecast panel that throws; otherwise it is made of the cards, the gated section and the forecast panel |
| `Display.OnlyAdminSeesControls` | src/app/dashboard/page.js:117 | for any role other than "admin" the controls section is absent and cannot throw; "admin" with a controls object shows it whenever the panel renders |
| `Forecast.First` | src/app/dashboard/page.js:67-69 | element 0 of an hourly array, or undefined when the array is empty |
| `Forecast.FirstSample` | src/app/dashboard/page.js:66-70 | a successful reply yields `(temperature_2m[0], precipitation_probability[0], time[0])` |
| `Forecast.AfterGeocode` | src/app/dashboard/page.js:55-58 | a run proceeds to the forecast exactly when the geocode reply lists a place, with the first place; otherwise it ends |
| `Forecast.AfterForecast` | src/app/dashboard/page.js:64-73 | a successful forecast replaces the shown sample; a failure leaves it unchanged |
| `DashboardPage.MountRequests` | src/app/dashboard/page.js:17-77 | the first render subscribes to the session, `sensors` and `controls`, and requests the geocode of the starting city, the one started run |
| `DashboardPage.StoredRole` | src/app/dashboard/page.js:24-27 | a role is stored exactly when the read succeeded and found a record, and it is the record's `role` |
| `DashboardPage.OnAuthChanged` | src/app/dashboard/page.js:18-27 | signed out: one redirect to /login and no change; signed in: one profile read, the role set from an existing record, and otherwise unchanged; nothing but the role changes |
| `DashboardPage.OnLogout` | src/app/dashboard/page.js:88-92 | logout emits sign-out and the redirect and clears nothing, the role included |
| `DashboardPage.OnSensorsPushed` | src/app/dashboard/page.js:34-36 | a sensors push replaces that snapshot whole and changes nothing else |
| `DashboardPage.OnControlsPushed` | src/app/dashboard/page.js:38-40 | a controls push replaces that snapshot whole and changes nothing else |
| `DashboardPage.OnCityTyped` | src/app/dashboard/page.js:139-141 | typing sets the city and never the forecast; a new text starts one geocode request and keeps every run in flight |
| `DashboardPage.OnGeocodeArrived` | src/app/dashboard/page.js:50-63 | the forecast request goes out exactly when the reply lists a place, for `geoData[0]`'s lat and lon; only that run's stage changes |
| `DashboardPage.OnForecastArrived` | src/app/dashboard/page.js:61-73 | success stores the first hourly sample whatever the current city; failure keeps the shown forecast; the run ends |
| `DashboardPage.OnTogglePressed` | src/app/dashboard/page.js:119-133 | a button click emits exactly one write of `undefined` to `controls/<key>` and changes no state |
| `DashboardPage.LastWriterWins` | src/app/dashboard/page.js:17-77 | over any admissible event order, the forecast is the last successful reply's sample (or the initial value); the role, the two snapshots and the city are each their last written value |
| `DashboardPage.ThrownPageIsTerminal` | src/app/dashboard/page.js:117-151 | once a render throws, no admissible event follows and the state stays as it was |
| `DashboardPage.RunsOnlyGrow` | src/app/dashboard/page.js:46-77 | no event sequence removes a started weather run |
| `DashboardPage.UnrepliedRunKeepsStage` | src/app/dashboard/page.js:46-77 | over any event sequence, a started run that receives no reply keeps its stage, whatever cities are typed meanwhile |
| `DashboardPage.OnlyRepliesMoveRuns` | src/app/dashboard/page.js:46-77 | a run's stage changes only on a reply addressed to it, so no city change cancels it |
| `DashboardPage.ForecastRequestNeedsPlace` | src/app/dashboard/page.js:55-63 | a forecast request is emitted only by a geocode reply that lists a place, for that first place |
| `DashboardPage.RegisteredUserSeesNoControls` | src/app/register/page.js:28-31 | signing in with a profile as registration writes it (role "user") sets that role, which the admin gate refuses |
| `DashboardPage.Dashboard.constructor` | src/app/dashboard/page.js:10-15 | empty snapshots, city "Dhaka", no forecast, no role, and the first run for "Dhaka" started |
| `DashboardPage.Dashboard.Mount` | src/app/dashboard/page.js:17-77 | called on the initial state, emits the first render's requests, including the geocode request for the starting city; no field changes |
| `DashboardPage.Dashboard.Page` | src/app/dashboard/page.js:99-160 | what the component shows: it throws exactly for an admin with nullish controls or an object-valued forecast field, and otherwise has toggles exactly for the "admin" role |
| `DashboardPage.Dashboard.OnAuthStateChanged` | src/app/dashboard/page.js:18-27 | updates the fields and emits the actions as `OnAuthChanged` states |
| `DashboardPage.Dashboard.Logout` | src/app/dashboard/page.js:88-92 | emits sign-out and the redirect and changes no field |
| `DashboardPage.Dashboard.OnSensorsValue` | src/app/dashboard/page.js:34-36 | overwrites `sensors` only |
| `DashboardPage.Dashboard.OnControlsValue` | src/app/dashboard/page.js:38-40 | overwrites `controls` only |
| `DashboardPage.Dashboard.SetCity` | src/app/dashboard/page.js:141 | sets `city` and starts a run for a new text, as `OnCityTyped` states |
| `DashboardPage.Dashboard.OnGeocodeReply` | src/app/dashboard/page.js:50-63 | advances the run and emits the forecast request as `OnGeocodeArrived` states |
| `DashboardPage.Dashboard.OnForecastReply` | src/app/dashboard/page.js:61-73 | settles the run and stores the sample on success, as `OnForecastArrived` states |
| `DashboardPage.Dashboard.Toggle` | src/app/dashboard/page.js:79-81 | `toggle(key, value)` emits exactly one write of `value` to `controls/<key>` |
| `DashboardPage.Dashboard.PressToggle` | src/app/dashboard/page.js:122-132 | a click calls `toggle(key)` with no value, so the write carries `undefined`; no field changes |

## Left out

- The identity provider, the realtime store, the router and `fetch` are external. Their replies are event parameters and their requests are `Action` values. What the store does with a written `undefined` is not modelled.
- The profile read (`get`) and its reply are one `AuthChanged` event. A second session change arriving while a read is pending is not modelled.
- Releasing the session listener on unmount (`src/app/dashboard/page.js:30`) is not modelled, and unmounting is not an event. After a render throws, the trace model admits no further event. In the page, a run already in flight still sends its forecast request, but it can no longer change any state. The class's handlers describe one call on a mounted component.
- Stringify: integers of magnitude 10^21 or more print in exponent form in JavaScript ("1e+21"); the model prints the full numeral.
- OptionalMember: only an object's own properties are read. Inherited ones, such as a string's `length` or the members of `Object.prototype`, are undefined in the model. The page reads none of these.
- Numbers are integers. Fractions, NaN and the infinities are not values. A string converts to a number only when it is empty or an optional sign followed by decimal digits, and every other text converts to NaN. Whitespace trimming, fractions, exponents and hex are left out. Arrays are not values.
- The text React prints for the stored forecast fields (`{weather.time}` and the like) is not modelled. The panel carries the values themselves. Only the throw on a plain-object field is modelled.
- Tailwind classes and card markup are left out. The toggle's colour class follows the same truthiness test as its caption.
- URL building and encoding for both lookups, and the `console.error` logging of a failed run, are left out.
- Async interleaving is a sequence of discrete events. A reply arrives only for a run that is waiting for it, and a click only for a button on the page. `Step` ignores other events, and `LastWriterWins` assumes an admissible sequence.
- The code does not clear the forecast on a city change, and it does not release the sensors/controls subscriptions. The model follows the code.
