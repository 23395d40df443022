/**
 * One run of the dashboard's weather lookup: a geocode request for the city
 * text, then, on a non-empty reply, a forecast request for the first place's
 * coordinates, then the first hourly sample. The HTTP exchanges themselves
 * are abstract outcomes; every way a stage can throw (network error, a body
 * that is not JSON, a reply without `hourly` or one of its arrays) is one
 * failure outcome.
 */
module Forecast {
  import opened Options
  import opened JsValues

  /** The `lat` and `lon` fields of one geocoding result. */
  datatype Place = Place(lat: JsValue, lon: JsValue)

  datatype GeocodeOutcome =
    | GeocodeFailed
    | Geocoded(places: seq<Place>)

  /** The `hourly` arrays of a forecast reply, or a failure of that stage. */
  datatype ForecastOutcome =
    | ForecastFailed
    | Hourly(temperature: seq<JsValue>, precipitationProbability: seq<JsValue>, time: seq<JsValue>)

  /** The displayed forecast sample (`temp`, `rainProb`, `time`). */
  datatype Weather = Weather(temp: JsValue, rainProb: JsValue, time: JsValue)

  /** Where an in-flight run stands. Runs are never cancelled, only settled. */
  datatype RunStage =
    | Geocoding(query: string)
    | Forecasting(place: Place)
    | Settled

  /** `xs[0]` on a JavaScript array: `undefined` when the array is empty. */
  function First(xs: seq<JsValue>): (r: JsValue)
    ensures |xs| > 0 ==> r == xs[0]
    ensures |xs| == 0 ==> r == Undefined
  {
    if |xs| > 0 then xs[0] else Undefined
  }

  /** The sample a successful forecast reply yields: element 0 of each hourly array. */
  function FirstSample(o: ForecastOutcome): (w: Weather)
    requires o.Hourly?
    ensures w.temp == First(o.temperature)
    ensures w.rainProb == First(o.precipitationProbability)
    ensures w.time == First(o.time)
  {
    Weather(First(o.temperature), First(o.precipitationProbability), First(o.time))
  }

  /**
   * The stage a run moves to when its geocode reply arrives: it goes on to the
   * forecast exactly when the reply lists at least one place, and then with
   * the first place listed; otherwise it is over.
   */
  function AfterGeocode(o: GeocodeOutcome): (next: RunStage)
    ensures next.Forecasting? <==> o.Geocoded? && |o.places| > 0
    ensures next.Forecasting? ==> next.place == o.places[0]
    ensures !next.Forecasting? ==> next.Settled?
  {
    match o
    case GeocodeFailed => Settled
    case Geocoded(places) => if |places| == 0 then Settled else Forecasting(places[0])
  }

  /**
   * The displayed forecast once a run's forecast reply arrives: a success
   * replaces it with the reply's first sample, whatever was shown before; a
   * failure leaves it as it was.
   */
  function AfterForecast(o: ForecastOutcome, shown: Option<Weather>): (r: Option<Weather>)
    ensures o.ForecastFailed? ==> r == shown
    ensures o.Hourly? ==> r == Some(FirstSample(o))
  {
    match o
    case ForecastFailed => shown
    case Hourly(_, _, _) => Some(FirstSample(o))
  }
}
