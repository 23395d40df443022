/**
 * The dashboard's display expressions: the four sensor cards, the role gate
 * on the controls section, the ON/OFF state of each control, and the
 * forecast panel. All are pure functions of the current state.
 */
module Display {
  import opened Options
  import opened JsValues
  import opened Forecast

  const Placeholder: string := "--"
  const CelsiusUnit: string := " \U{B0}C"
  const PercentUnit: string := " %"
  const RainYes: string := "YES \U{1F327}"
  const RainNo: string := "NO \U{2600}\U{FE0F}"
  const Day: string := "DAY \U{2600}\U{FE0F}"
  const Night: string := "NIGHT \U{1F319}"
  const RainyIcon: string := "\U{1F327}"
  const SunnyIcon: string := "\U{2600}\U{FE0F}"
  /** The light level at or below which the sensor reads as daylight. */
  const DaylightThreshold: int := 300
  /** The rain probability (percent) above which the forecast shows rain. */
  const RainyAbove: int := 50
  const AdminRole: JsValue := Str("admin")

  /** A numeric card: `${v ?? "--"}` followed by its unit. */
  function CardText(v: JsValue, unit: string): (t: string)
    ensures Nullish(v) ==> t == Placeholder + unit
    ensures !Nullish(v) ==> t == Stringify(v) + unit
  {
    Stringify(Coalesce(v, Str(Placeholder))) + unit
  }

  /**
   * A numeric card shows the placeholder exactly when the value is null or
   * undefined (or is itself the text "--"); in particular 0 is shown as 0.
   */
  lemma CardPlaceholderExactly(v: JsValue, unit: string)
    ensures CardText(v, unit) == Placeholder + unit <==> Nullish(v) || v == Str(Placeholder)
    ensures v == Num(0) ==> CardText(v, unit) == "0" + unit
  {
    StringifyDashes(v);
    if !Nullish(v) {
      if Stringify(v) + unit == Placeholder + unit {
        assert Stringify(v) == (Stringify(v) + unit)[..|Stringify(v)|];
      }
    }
  }

  /**
   * The temperature card: the placeholder exactly when `sensors?.temperature`
   * is nullish (or the text "--"), else the value's text, in degrees.
   */
  function TemperatureText(sensors: JsValue): (t: string)
    ensures t == Placeholder + CelsiusUnit <==>
              Nullish(OptionalMember(sensors, "temperature")) || OptionalMember(sensors, "temperature") == Str(Placeholder)
    ensures !Nullish(OptionalMember(sensors, "temperature")) ==>
              t == Stringify(OptionalMember(sensors, "temperature")) + CelsiusUnit
  {
    CardPlaceholderExactly(OptionalMember(sensors, "temperature"), CelsiusUnit);
    CardText(OptionalMember(sensors, "temperature"), CelsiusUnit)
  }

  /**
   * The humidity card: the placeholder exactly when `sensors?.humidity` is
   * nullish (or the text "--"), else the value's text, in percent.
   */
  function HumidityText(sensors: JsValue): (t: string)
    ensures t == Placeholder + PercentUnit <==>
              Nullish(OptionalMember(sensors, "humidity")) || OptionalMember(sensors, "humidity") == Str(Placeholder)
    ensures !Nullish(OptionalMember(sensors, "humidity")) ==>
              t == Stringify(OptionalMember(sensors, "humidity")) + PercentUnit
  {
    CardPlaceholderExactly(OptionalMember(sensors, "humidity"), PercentUnit);
    CardText(OptionalMember(sensors, "humidity"), PercentUnit)
  }

  /** The rain card: YES exactly when `sensors?.rain` is truthy, NO otherwise. */
  function RainText(sensors: JsValue): (t: string)
    ensures t == RainYes <==> Truthy(OptionalMember(sensors, "rain"))
    ensures t == RainYes || t == RainNo
  {
    if Truthy(OptionalMember(sensors, "rain")) then RainYes else RainNo
  }

  /**
   * The time-of-day card: "--" while `ldr` is undefined, DAY when it compares
   * at or below the threshold, NIGHT otherwise (including every value that
   * converts to NaN).
   */
  function DaylightText(sensors: JsValue): (t: string)
    ensures OptionalMember(sensors, "ldr") == Undefined ==> t == Placeholder
    ensures OptionalMember(sensors, "ldr") != Undefined ==>
              t == (if LessOrEqual(OptionalMember(sensors, "ldr"), DaylightThreshold) then Day else Night)
  {
    if OptionalMember(sensors, "ldr") == Undefined then Placeholder
    else
      // the guard has ruled out a nullish `sensors`, so the plain access succeeds
      var ldr := Member(sensors, "ldr").value;
      if LessOrEqual(ldr, DaylightThreshold) then Day else Night
  }

  /** With an integer light level the threshold is inclusive: 300 is day, 301 night. */
  lemma DaylightThresholdInclusive(sensors: JsValue, n: int)
    requires OptionalMember(sensors, "ldr") == Num(n)
    ensures DaylightText(sensors) == (if n <= 300 then Day else Night)
    ensures n == 300 ==> DaylightText(sensors) == Day
    ensures n == 301 ==> DaylightText(sensors) == Night
  {
    assert Day != Night;
  }

  /**
   * A light level stored as decimal text compares as the number it denotes:
   * "300" is day, "301" night.
   */
  lemma {:induction false} DaylightFromText(sensors: JsValue, n: int)
    requires OptionalMember(sensors, "ldr") == Str(NumberToString(n))
    ensures DaylightText(sensors) == (if n <= DaylightThreshold then Day else Night)
  {
    NumberTextRoundTrip(n);
  }

  /** The forecast icon: rain exactly when `rainProb > 50` holds. */
  function RainIcon(rainProb: JsValue): (icon: string)
    ensures icon == RainyIcon <==> Greater(rainProb, RainyAbove)
    ensures icon == RainyIcon || icon == SunnyIcon
  {
    if Greater(rainProb, RainyAbove) then RainyIcon else SunnyIcon
  }

  /** A control button's caption: ON exactly when its flag is truthy. */
  function ToggleLabel(v: JsValue): (caption: string)
    ensures caption == "ON" <==> Truthy(v)
    ensures caption == "ON" || caption == "OFF"
  {
    if Truthy(v) then "ON" else "OFF"
  }

  /** One rendered control: its title, the key it writes, and its caption. */
  datatype ToggleView = ToggleView(title: string, key: string, caption: string)

  datatype WeatherView =
    | LoadingWeather
    | ForecastShown(time: JsValue, temp: JsValue, rainProb: JsValue, icon: string)

  datatype View = View(
    temperature: string,
    humidity: string,
    rain: string,
    daylight: string,
    controls: Option<seq<ToggleView>>,
    weather: WeatherView)

  /** Rendering either yields the page or throws (which ends the component). */
  datatype Rendered<T> = Ok(value: T) | Throws

  /** The three control buttons, as (title, key) pairs, in page order. */
  const ToggleButtons: seq<(string, string)> := [("System", "system"), ("Servo 1", "servo1"), ("Servo 2", "servo2")]

  /**
   * The role gate `role === "admin"`: strict equality, so only the string
   * "admin" opens it; no other value is converted to match.
   */
  predicate ControlsVisible(role: JsValue)
    ensures ControlsVisible(role) <==> role.Str? && role.s == "admin"
  {
    role == AdminRole
  }

  /** The controls section; its flags are read with plain `controls.key`. */
  function ControlsSection(role: JsValue, controls: JsValue): (r: Rendered<Option<seq<ToggleView>>>)
    ensures r.Throws? <==> ControlsVisible(role) && Nullish(controls)
    ensures r.Ok? ==> (r.value.Some? <==> ControlsVisible(role))
    ensures r.Ok? && r.value.Some? ==>
              |r.value.value| == |ToggleButtons| &&
              forall i :: 0 <= i < |ToggleButtons| ==>
                r.value.value[i] == ToggleView(ToggleButtons[i].0, ToggleButtons[i].1,
                                               ToggleLabel(OptionalMember(controls, ToggleButtons[i].1)))
  {
    if !ControlsVisible(role) then Ok(None)
    else if Nullish(controls) then Throws  // TypeError: `controls.system` of null
    else Ok(Some(seq(|ToggleButtons|, i requires 0 <= i < |ToggleButtons| =>
                  ToggleView(ToggleButtons[i].0, ToggleButtons[i].1,
                             ToggleLabel(Member(controls, ToggleButtons[i].1).value)))))
  }

  /**
   * A value React accepts as a child: every value but a plain object (null,
   * undefined and the booleans print nothing, numbers and strings print text).
   */
  predicate ReactChild(v: JsValue)
  {
    !v.Obj?
  }

  /**
   * The forecast panel: a placeholder until a forecast has been stored, then
   * its time, temperature and probability with the rain icon. Printing a
   * stored field that is a plain object throws.
   */
  function WeatherPanel(weather: Option<Weather>): (r: Rendered<WeatherView>)
    ensures r.Throws? <==>
              (weather.Some? &&
               !(ReactChild(weather.value.time) && ReactChild(weather.value.temp) && ReactChild(weather.value.rainProb)))
    ensures r.Ok? ==> (weather.None? <==> r.value.LoadingWeather?)
    ensures r.Ok? && weather.Some? ==>
              r.value == ForecastShown(weather.value.time, weather.value.temp, weather.value.rainProb,
                                       RainIcon(weather.value.rainProb))
  {
    match weather
    case None => Ok(LoadingWeather)
    case Some(w) =>
      if ReactChild(w.time) && ReactChild(w.temp) && ReactChild(w.rainProb)
      then Ok(ForecastShown(w.time, w.temp, w.rainProb, RainIcon(w.rainProb)))
      else Throws  // "Objects are not valid as a React child"
  }

  /**
   * The whole page. It throws exactly when the controls section or the
   * forecast panel throws; otherwise it is made of the four cards, the gated
   * section and the panel.
   */
  function Render(sensors: JsValue, controls: JsValue, role: JsValue, weather: Option<Weather>): (r: Rendered<View>)
    ensures r.Throws? <==> (ControlsVisible(role) && Nullish(controls)) || WeatherPanel(weather).Throws?
    ensures r.Ok? ==> r.value.controls == ControlsSection(role, controls).value
    ensures r.Ok? ==> r.value.temperature == TemperatureText(sensors) && r.value.humidity == HumidityText(sensors)
    ensures r.Ok? ==> r.value.rain == RainText(sensors) && r.value.daylight == DaylightText(sensors)
    ensures r.Ok? ==> r.value.weather == WeatherPanel(weather).value
  {
    match (ControlsSection(role, controls), WeatherPanel(weather))
    case (Ok(section), Ok(panel)) =>
      Ok(View(TemperatureText(sensors), HumidityText(sensors), RainText(sensors), DaylightText(sensors),
              section, panel))
    case _ => Throws
  }

  /**
   * Only the "admin" role sees controls: for a null role, "user" or any other
   * value the controls section is absent and cannot throw; for "admin" with a
   * controls object it is present whenever the page renders.
   */
  lemma OnlyAdminSeesControls(sensors: JsValue, controls: JsValue, role: JsValue, weather: Option<Weather>)
    ensures role != Str("admin") ==> ControlsSection(role, controls) == Ok(None)
    ensures role != Str("admin") && Render(sensors, controls, role, weather).Ok? ==>
              Render(sensors, controls, role, weather).value.controls.None?
    ensures role == Str("admin") && !Nullish(controls) && WeatherPanel(weather).Ok? ==>
              Render(sensors, controls, role, weather).Ok? &&
              Render(sensors, controls, role, weather).value.controls.Some?
  {
  }
}
