/**
 * The dashboard page as an event-driven state machine. Identity-provider
 * notifications, realtime-store pushes, text input, clicks and HTTP replies
 * arrive as events; store reads and writes, navigation and HTTP requests
 * leave as actions. `Step` is the specification of one event, `Run` of a
 * sequence of them, and the class `Dashboard` is the component whose fields
 * the event handlers overwrite.
 */
module DashboardPage {
  import opened Options
  import opened JsValues
  import opened Forecast
  import opened Display

  const LoginPath: string := "/login"
  const InitialCity: string := "Dhaka"
  const SensorsPath: string := "sensors"
  const ControlsPath: string := "controls"
  /** The keys the control buttons write. */
  const ToggleKeys: set<string> := set i | 0 <= i < |ToggleButtons| :: ToggleButtons[i].1

  /** A request the page hands to the outside world. */
  datatype Action =
    | ListenSession
    | Listen(path: string)
    | Redirect(path: string)
    | ReadOnce(path: string)
    | Write(path: string, value: JsValue)
    | SignOut
    | FetchGeocode(query: string)
    | FetchForecast(lat: JsValue, lon: JsValue)

  /**
   * The reply to the one-off profile read: the read failed, or a snapshot
   * whose value is `null` when no record exists at the path.
   */
  datatype ProfileRead = ReadFailed | Snapshot(val: JsValue)

  datatype Event =
    | AuthChanged(user: Option<string>, profile: ProfileRead)
    | LogoutClicked
    | SensorsPushed(sensorsValue: JsValue)
    | ControlsPushed(controlsValue: JsValue)
    | CityTyped(text: string)
    | GeocodeArrived(geocodeRun: nat, geocode: GeocodeOutcome)
    | ForecastArrived(forecastRun: nat, forecast: ForecastOutcome)
    | TogglePressed(key: string)

  /** The component state, plus the weather runs started so far in start order. */
  datatype State = State(
    sensors: JsValue,
    controls: JsValue,
    city: string,
    weather: Option<Weather>,
    role: JsValue,
    runs: seq<RunStage>)

  datatype Transition = Transition(state: State, actions: seq<Action>)

  function ProfilePath(uid: string): string
  {
    "users/" + uid
  }

  function ControlPath(key: string): string
  {
    "controls/" + key
  }

  /**
   * The state on first render: empty snapshots, the default city, no forecast,
   * no role, and the weather run for the default city already requested.
   */
  function Initial(): State
  {
    State(Obj(map[]), Obj(map[]), InitialCity, None, Null, [Geocoding(InitialCity)])
  }

  /**
   * The role a profile read stores: `snap.val().role` when the record exists;
   * nothing when the read failed or found no record (or the property access
   * threw).
   */
  function StoredRole(read: ProfileRead): (r: Option<JsValue>)
    ensures r.Some? <==> read.Snapshot? && !Nullish(read.val)
    ensures r.Some? ==> r.value == OptionalMember(read.val, "role")
  {
    match read
    case ReadFailed => None
    case Snapshot(v) => if v == Null then None else Member(v, "role")
  }

  /**
   * The requests the first render's effects issue: the session listener, the
   * two store subscriptions, and the geocode request of the first weather run,
   * for the city the page starts with.
   */
  function MountRequests(s: State): (a: seq<Action>)
    ensures a == [ListenSession, Listen(SensorsPath), Listen(ControlsPath), FetchGeocode(s.city)]
    ensures s == Initial() ==> forall i :: 0 <= i < |s.runs| ==> FetchGeocode(s.runs[i].query) in a
  {
    [ListenSession, Listen(SensorsPath), Listen(ControlsPath), FetchGeocode(s.city)]
  }

  /** The page is still there: its last render did not throw. */
  predicate Alive(s: State)
  {
    Render(s.sensors, s.controls, s.role, s.weather).Ok?
  }

  // ------------------------------------------------------------ event handlers

  /**
   * A session change. Signed out: one redirect to the login page and nothing
   * else. Signed in: a read of the user's profile, and the role becomes the
   * profile's `role` when the record exists; otherwise the role stays as it
   * was. Nothing but the role ever changes.
   */
  function OnAuthChanged(s: State, user: Option<string>, read: ProfileRead): (t: Transition)
    ensures user.None? ==> t.actions == [Redirect(LoginPath)] && t.state == s
    ensures user.Some? ==> t.actions == [ReadOnce(ProfilePath(user.value))]
    ensures t.state == s.(role := t.state.role)
    ensures user.Some? && read.Snapshot? && !Nullish(read.val) ==> t.state.role == OptionalMember(read.val, "role")
    ensures t.state.role != s.role ==> user.Some? && read.Snapshot? && !Nullish(read.val)
  {
    match user
    case None => Transition(s, [Redirect(LoginPath)])
    case Some(uid) =>
      var role := match StoredRole(read) case Some(r) => r case None => s.role;
      Transition(s.(role := role), [ReadOnce(ProfilePath(uid))])
  }

  /** Logout signs out and redirects; it clears no state, the role included. */
  function OnLogout(s: State): (t: Transition)
    ensures t.state == s
    ensures t.actions == [SignOut, Redirect(LoginPath)]
  {
    Transition(s, [SignOut, Redirect(LoginPath)])
  }

  /** A push at `sensors` replaces that snapshot whole; nothing else changes. */
  function OnSensorsPushed(s: State, v: JsValue): (t: Transition)
    ensures t.state.sensors == v
    ensures t.state == s.(sensors := v)
    ensures t.actions == []
  {
    Transition(s.(sensors := v), [])
  }

  /** A push at `controls` replaces that snapshot whole; nothing else changes. */
  function OnControlsPushed(s: State, v: JsValue): (t: Transition)
    ensures t.state.controls == v
    ensures t.state == s.(controls := v)
    ensures t.actions == []
  {
    Transition(s.(controls := v), [])
  }

  /**
   * Typing in the city box sets the city. A different text starts a new
   * weather run (a geocode request for it) without cancelling the runs
   * already in flight; the same text changes nothing. The shown forecast is
   * never touched.
   */
  function OnCityTyped(s: State, text: string): (t: Transition)
    ensures t.state.city == text
    ensures t.state.weather == s.weather
    ensures t.state == s.(city := text, runs := t.state.runs)
    ensures text != s.city ==> t.state.runs == s.runs + [Geocoding(text)] && t.actions == [FetchGeocode(text)]
    ensures text == s.city ==> t.state == s && t.actions == []
  {
    if text == s.city then Transition(s, [])
    else Transition(s.(city := text, runs := s.runs + [Geocoding(text)]), [FetchGeocode(text)])
  }

  predicate AwaitingGeocode(s: State, run: nat)
  {
    run < |s.runs| && s.runs[run].Geocoding?
  }

  predicate AwaitingForecast(s: State, run: nat)
  {
    run < |s.runs| && s.runs[run].Forecasting?
  }

  /**
   * A run's geocode reply. The forecast request goes out exactly when the
   * reply lists a place, for the first place's coordinates; an empty list or
   * a failure ends the run. The shown forecast is not touched.
   */
  function OnGeocodeArrived(s: State, run: nat, o: GeocodeOutcome): (t: Transition)
    requires AwaitingGeocode(s, run)
    ensures t.state == s.(runs := s.runs[run := AfterGeocode(o)])
    ensures t.actions != [] <==> o.Geocoded? && |o.places| > 0
    ensures t.actions != [] ==> t.actions == [FetchForecast(o.places[0].lat, o.places[0].lon)]
  {
    var next := AfterGeocode(o);
    var actions := if next.Forecasting? then [FetchForecast(next.place.lat, next.place.lon)] else [];
    Transition(s.(runs := s.runs[run := next]), actions)
  }

  /**
   * A run's forecast reply ends the run. A success stores the reply's first
   * sample as the shown forecast, whichever city the run was for; a failure
   * leaves the shown forecast as it was.
   */
  function OnForecastArrived(s: State, run: nat, o: ForecastOutcome): (t: Transition)
    requires AwaitingForecast(s, run)
    ensures t.state == s.(weather := t.state.weather, runs := s.runs[run := Settled])
    ensures o.ForecastFailed? ==> t.state.weather == s.weather
    ensures o.Hourly? ==> t.state.weather == Some(Weather(First(o.temperature), First(o.precipitationProbability), First(o.time)))
    ensures t.actions == []
  {
    Transition(s.(weather := AfterForecast(o, s.weather), runs := s.runs[run := Settled]), [])
  }

  /** A control button exists on the page only for the admin, once the controls render. */
  predicate ToggleOnPage(s: State, key: string)
  {
    ControlsVisible(s.role) && !Nullish(s.controls) && key in ToggleKeys
  }

  /**
   * Clicking a control button calls `toggle(key)` with no value: one write of
   * `undefined` to the control's path, and no change to local state.
   */
  function OnTogglePressed(s: State, key: string): (t: Transition)
    requires ToggleOnPage(s, key)
    ensures t.state == s
    ensures t.actions == [Write(ControlPath(key), Undefined)]
  {
    Transition(s, [Write(ControlPath(key), Undefined)])
  }

  // ------------------------------------------------------------------- traces

  /**
   * Whether an event can happen in a state: none once a render has thrown
   * (the component is gone); a reply needs a run waiting for it; a click
   * needs its button.
   */
  predicate Enabled(s: State, e: Event)
  {
    Alive(s) &&
    match e
    case GeocodeArrived(run, _) => AwaitingGeocode(s, run)
    case ForecastArrived(run, _) => AwaitingForecast(s, run)
    case TogglePressed(key) => ToggleOnPage(s, key)
    case _ => true
  }

  /** One event; an event that cannot happen in `s` leaves it as it is. */
  function Step(s: State, e: Event): Transition
  {
    if !Enabled(s, e) then Transition(s, [])
    else match e
      case AuthChanged(user, read) => OnAuthChanged(s, user, read)
      case LogoutClicked => OnLogout(s)
      case SensorsPushed(v) => OnSensorsPushed(s, v)
      case ControlsPushed(v) => OnControlsPushed(s, v)
      case CityTyped(text) => OnCityTyped(s, text)
      case GeocodeArrived(run, o) => OnGeocodeArrived(s, run, o)
      case ForecastArrived(run, o) => OnForecastArrived(s, run, o)
      case TogglePressed(key) => OnTogglePressed(s, key)
  }

  /** The state after a sequence of events, applied in order. */
  function Run(s: State, evs: seq<Event>): State
    decreases |evs|
  {
    if evs == [] then s else Step(Run(s, evs[..|evs| - 1]), evs[|evs| - 1]).state
  }

  /** Every event of the sequence can happen when it arrives. */
  predicate Admissible(s: State, evs: seq<Event>)
    decreases |evs|
  {
    evs == [] || (Admissible(s, evs[..|evs| - 1]) && Enabled(Run(s, evs[..|evs| - 1]), evs[|evs| - 1]))
  }

  /** The value the last writing event of `evs` wrote, or `init` if none wrote. */
  function LastWritten<T>(evs: seq<Event>, written: Event -> Option<T>, init: T): T
    decreases |evs|
  {
    if evs == [] then init
    else match written(evs[|evs| - 1])
      case Some(v) => v
      case None => LastWritten(evs[..|evs| - 1], written, init)
  }

  /** What an event writes to the shown forecast: only a successful forecast reply writes. */
  function WeatherWrite(e: Event): Option<Option<Weather>>
  {
    if e.ForecastArrived? && e.forecast.Hourly? then Some(Some(FirstSample(e.forecast))) else None
  }

  /** What an event writes to the role: only a sign-in whose profile record exists writes. */
  function RoleWrite(e: Event): Option<JsValue>
  {
    if e.AuthChanged? && e.user.Some? then StoredRole(e.profile) else None
  }

  function SensorsWrite(e: Event): Option<JsValue>
  {
    if e.SensorsPushed? then Some(e.sensorsValue) else None
  }

  function ControlsWrite(e: Event): Option<JsValue>
  {
    if e.ControlsPushed? then Some(e.controlsValue) else None
  }

  function CityWrite(e: Event): Option<string>
  {
    if e.CityTyped? then Some(e.text) else None
  }

  /**
   * Last writer wins, field by field, over any admissible order of events:
   * the shown forecast is the sample of the last successful forecast reply
   * (whatever city its run was for, and however the runs interleaved), or the
   * initial one if none succeeded; the role is the one read by the last
   * sign-in that found a profile (logout never clears it); each snapshot is
   * the last value pushed; the city is the last text typed.
   */
  lemma {:induction false} LastWriterWins(s: State, evs: seq<Event>)
    requires Admissible(s, evs)
    ensures Run(s, evs).weather == LastWritten(evs, WeatherWrite, s.weather)
    ensures Run(s, evs).role == LastWritten(evs, RoleWrite, s.role)
    ensures Run(s, evs).sensors == LastWritten(evs, SensorsWrite, s.sensors)
    ensures Run(s, evs).controls == LastWritten(evs, ControlsWrite, s.controls)
    ensures Run(s, evs).city == LastWritten(evs, CityWrite, s.city)
    decreases |evs|
  {
    if evs != [] {
      var prefix := evs[..|evs| - 1];
      LastWriterWins(s, prefix);
    }
  }

  /** A render that throws ends the page: no later event changes anything or asks for anything. */
  lemma {:induction false} ThrownPageIsTerminal(s: State, evs: seq<Event>)
    requires !Alive(s)
    ensures Run(s, evs) == s
    ensures !Admissible(s, evs) || evs == []
    decreases |evs|
  {
    if evs != [] {
      ThrownPageIsTerminal(s, evs[..|evs| - 1]);
    }
  }

  /** One event never drops a started run. */
  lemma StepKeepsRuns(s: State, e: Event)
    ensures |Step(s, e).state.runs| >= |s.runs|
  {
  }

  /** Weather runs are never cancelled or forgotten: the list of runs only grows. */
  lemma {:induction false} RunsOnlyGrow(s: State, evs: seq<Event>)
    ensures |Run(s, evs).runs| >= |s.runs|
    decreases |evs|
  {
    if evs != [] {
      var prefix := evs[..|evs| - 1];
      RunsOnlyGrow(s, prefix);
      StepKeepsRuns(Run(s, prefix), evs[|evs| - 1]);
    }
  }

  /** Whether an event is a reply to the given run. */
  predicate RepliesTo(e: Event, run: nat)
  {
    (e.GeocodeArrived? && e.geocodeRun == run) || (e.ForecastArrived? && e.forecastRun == run)
  }

  /**
   * No event sequence cancels a run: a run already started keeps its stage
   * through any events none of which is a reply to it, city changes included.
   */
  lemma {:induction false} UnrepliedRunKeepsStage(s: State, evs: seq<Event>, run: nat)
    requires run < |s.runs|
    requires forall j :: 0 <= j < |evs| ==> !RepliesTo(evs[j], run)
    ensures run < |Run(s, evs).runs| && Run(s, evs).runs[run] == s.runs[run]
    decreases |evs|
  {
    if evs != [] {
      var prefix := evs[..|evs| - 1];
      assert forall j :: 0 <= j < |prefix| ==> prefix[j] == evs[j];
      UnrepliedRunKeepsStage(s, prefix, run);
      assert !RepliesTo(evs[|evs| - 1], run);
    }
  }

  /**
   * In one step, the stage of a run already started changes only on a reply
   * addressed to that run.
   */
  lemma OnlyRepliesMoveRuns(s: State, e: Event, i: nat)
    requires i < |s.runs|
    ensures |Step(s, e).state.runs| >= |s.runs|
    ensures Step(s, e).state.runs[i] != s.runs[i] ==>
              (e.GeocodeArrived? && e.geocodeRun == i) || (e.ForecastArrived? && e.forecastRun == i)
  {
  }

  /**
   * The forecast request is issued only by a geocode reply that lists a
   * place, and then for that first place's coordinates.
   */
  lemma ForecastRequestNeedsPlace(s: State, e: Event, lat: JsValue, lon: JsValue)
    requires FetchForecast(lat, lon) in Step(s, e).actions
    ensures e.GeocodeArrived? && AwaitingGeocode(s, e.geocodeRun)
    ensures e.geocode.Geocoded? && |e.geocode.places| > 0 && e.geocode.places[0] == Place(lat, lon)
  {
  }

  /** A registered user's profile holds the role "user", so that user never sees the controls. */
  lemma RegisteredUserSeesNoControls(s: State, uid: string, email: string)
    ensures var t := OnAuthChanged(s, Some(uid), Snapshot(Obj(map["role" := Str("user"), "email" := Str(email)])));
            t.state.role == Str("user") && !ControlsVisible(t.state.role)
  {
  }

  // ------------------------------------------------------------ the component

  /** The dashboard component: its state variables and its event handlers. */
  class Dashboard {
    var sensors: JsValue
    var controls: JsValue
    var city: string
    var weather: Option<Weather>
    var role: JsValue
    /** The weather runs started so far, in start order (the pending fetches). */
    var runs: seq<RunStage>

    function Current(): State
      reads this
    {
      State(sensors, controls, city, weather, role, runs)
    }

    /**
     * What the component renders now: it throws exactly for an admin with a
     * nullish controls snapshot or a stored forecast field that is a plain
     * object; otherwise the toggles appear exactly for the "admin" role.
     */
    function Page(): (r: Rendered<View>)
      reads this
      ensures r.Throws? <==>
                (role == Str("admin") && Nullish(controls)) ||
                (weather.Some? && (weather.value.time.Obj? || weather.value.temp.Obj? || weather.value.rainProb.Obj?))
      ensures r.Ok? ==> (r.value.controls.Some? <==> role == Str("admin"))
    {
      Render(sensors, controls, role, weather)
    }

    constructor ()
      ensures Current() == Initial()
    {
      sensors := Obj(map[]);
      controls := Obj(map[]);
      city := InitialCity;
      weather := None;
      role := Null;
      runs := [Geocoding(InitialCity)];
    }

    /** The requests of the first render's effects. No field changes. */
    method Mount() returns (actions: seq<Action>)
      requires Current() == Initial()
      ensures actions == MountRequests(Current())
      ensures FetchGeocode(city) in actions
    {
      actions := [ListenSession, Listen(SensorsPath), Listen(ControlsPath), FetchGeocode(city)];
    }

    method OnAuthStateChanged(user: Option<string>, profile: ProfileRead) returns (actions: seq<Action>)
      modifies this
      ensures Transition(Current(), actions) == OnAuthChanged(old(Current()), user, profile)
    {
      if user.None? {
        actions := [Redirect(LoginPath)];
        return;
      }
      actions := [ReadOnce(ProfilePath(user.value))];
      if profile.Snapshot? && profile.val != Null {
        var stored := Member(profile.val, "role");
        if stored.Some? {
          role := stored.value;
        }
      }
    }

    method Logout() returns (actions: seq<Action>)
      ensures Transition(Current(), actions) == OnLogout(Current())
    {
      actions := [SignOut, Redirect(LoginPath)];
    }

    method OnSensorsValue(v: JsValue)
      modifies this
      ensures Transition(Current(), []) == OnSensorsPushed(old(Current()), v)
    {
      sensors := v;
    }

    method OnControlsValue(v: JsValue)
      modifies this
      ensures Transition(Current(), []) == OnControlsPushed(old(Current()), v)
    {
      controls := v;
    }

    method SetCity(text: string) returns (actions: seq<Action>)
      modifies this
      ensures Transition(Current(), actions) == OnCityTyped(old(Current()), text)
    {
      actions := [];
      if text != city {
        city := text;
        runs := runs + [Geocoding(text)];
        actions := [FetchGeocode(text)];
      }
    }

    method OnGeocodeReply(run: nat, o: GeocodeOutcome) returns (actions: seq<Action>)
      requires AwaitingGeocode(Current(), run)
      modifies this
      ensures Transition(Current(), actions) == OnGeocodeArrived(old(Current()), run, o)
    {
      actions := [];
      if o.GeocodeFailed? || |o.places| == 0 {
        runs := runs[run := Settled];
        return;
      }
      var first := o.places[0];
      runs := runs[run := Forecasting(first)];
      actions := [FetchForecast(first.lat, first.lon)];
    }

    method OnForecastReply(run: nat, o: ForecastOutcome)
      requires AwaitingForecast(Current(), run)
      modifies this
      ensures Transition(Current(), []) == OnForecastArrived(old(Current()), run, o)
    {
      runs := runs[run := Settled];
      if o.Hourly? {
        weather := Some(Weather(First(o.temperature), First(o.precipitationProbability), First(o.time)));
      }
    }

    /** `toggle(key, value)`: one write of `value` to the control's path; no local change. */
    method Toggle(key: string, value: JsValue) returns (actions: seq<Action>)
      ensures actions == [Write(ControlPath(key), value)]
    {
      actions := [Write(ControlPath(key), value)];
    }

    /** A click on a control button, which calls `toggle(key)` without a value. */
    method PressToggle(key: string) returns (actions: seq<Action>)
      requires ToggleOnPage(Current(), key)
      ensures Transition(Current(), actions) == OnTogglePressed(Current(), key)
    {
      actions := Toggle(key, Undefined);
    }
  }
}
