/**
 * The weather orchestrator (src/composables/useWeather.ts): five state
 * fields and three entry points. Each entry point writes a starting state,
 * awaits one external call, and writes a finished state; the initial entry
 * point may await a second call (the gateway) after the resolver.
 *
 * The outside world is given as inputs: the platform's geolocation answer
 * and the transport's reply to the gateway request. Every entry point runs
 * to completion before the next begins.
 */
module Weather {
  import opened WeatherTypes
  import JsText
  import WeatherApi
  import Geolocation

  /** The five fields of the orchestrator. */
  datatype State = State(
    weather: Option<WeatherData>,
    loadingState: LoadingState,
    appError: Option<AppError>,
    searchQuery: string,
    isLoading: bool)

  const Initial := State(None, Idle, None, "", false)

  const LocationFallbackMessage := "Не удалось определить местоположение. Введите город вручную."

  /** The error reported when the resolver fails without recording an error of its own. */
  const LocationFallbackError := AppError(GeolocationUnavailable, LocationFallbackMessage, None)

  /** A state observers may see while an external call is outstanding. */
  predicate InFlight(s: State) {
    s.isLoading && s.appError.None? && s.loadingState in {LoadingGeo, LoadingWeather}
  }

  /** A state in which no entry point is running, told apart by its status. */
  predicate Settled(s: State) {
    && !s.isLoading
    && s.loadingState in {Idle, Success, Error}
    && (s.loadingState == Error <==> s.appError.Some?)
    && (s.loadingState == Success ==> s.weather.Some?)
  }

  /** The writes an entry point makes before it awaits: the phase, busy, and no error. */
  function Starting(s: State, phase: LoadingState): (t: State)
    requires phase in {LoadingGeo, LoadingWeather}
    ensures InFlight(t) && t.loadingState == phase
    ensures t.weather == s.weather && t.searchQuery == s.searchQuery
  {
    s.(loadingState := phase, isLoading := true, appError := None)
  }

  /** `setError`: the error is stored and the status is ERROR; the busy flag is cleared. */
  function Failed(s: State, e: AppError): (t: State)
    ensures t.appError == Some(e) && t.loadingState == Error && !t.isLoading
    ensures t.weather == s.weather && t.searchQuery == s.searchQuery
    ensures Settled(t)
  {
    s.(appError := Some(e), loadingState := Error, isLoading := false)
  }

  /**
   * The try/catch/finally around a gateway call. A snapshot replaces the
   * previous one whole and the status becomes SUCCESS; a thrown error is stored
   * as it is and the previous snapshot is kept. Either way the busy flag ends
   * cleared, and a call that started in flight ends settled.
   */
  function Fetched(s: State, r: Result<WeatherData>): (t: State)
    ensures !t.isLoading && t.searchQuery == s.searchQuery
    ensures r.Ok? ==> t.weather == Some(r.value) && t.loadingState == Success && t.appError == s.appError
    ensures r.Err? ==> t.weather == s.weather && t.loadingState == Error && t.appError == Some(r.error)
    ensures InFlight(s) ==> Settled(t)
  {
    match r
    case Ok(d) => s.(weather := Some(d), loadingState := Success, isLoading := false)
    case Err(e) => Failed(s, e)
  }

  /** A gateway call made by the city search: as Fetched, and a success also clears the query. */
  function Searched(s: State, r: Result<WeatherData>): (t: State)
    ensures t.searchQuery == if r.Ok? then "" else s.searchQuery
    ensures t == Fetched(s, r).(searchQuery := t.searchQuery)
  {
    if r.Ok? then Fetched(s, r).(searchQuery := "") else Fetched(s, r)
  }

  /** The whole effect of the initial entry point on the five fields, given how the resolver settled. */
  function Initialized(s: State, located: Result<Coordinates>, reply: WeatherApi.Reply): (t: State)
    requires WeatherApi.WellFormed(reply)
    ensures Settled(t) && t.searchQuery == s.searchQuery
    ensures located.Err? ==> t.weather == s.weather && t.appError == Some(located.error)
  {
    match located
    case Err(e) => Failed(Starting(s, LoadingGeo), e)
    case Ok(c) =>
      Fetched(Starting(s, LoadingWeather), WeatherApi.FetchByCoordinates(c, reply).outcome)
  }

  /** `useWeather()`: the orchestrator, with its own resolver. */
  class Orchestrator {
    var weather: Option<WeatherData>
    var loadingState: LoadingState
    var appError: Option<AppError>
    var searchQuery: string
    var isLoading: bool
    const geo: Geolocation.Resolver
    /** The fields as they stood at each await, one entry per external call. */
    ghost var awaits: seq<State>
    /** The requests that reached the weather transport, in order. */
    ghost var requests: seq<WeatherApi.Request>

    function View(): State
      reads this
    {
      State(weather, loadingState, appError, searchQuery, isLoading)
    }

    /** No observer ever saw a stale error or a cleared busy flag during a call. */
    ghost predicate Valid()
      reads this
    {
      forall i :: 0 <= i < |awaits| ==> InFlight(awaits[i])
    }

    constructor ()
      ensures Valid() && View() == Initial && Settled(View())
      ensures fresh(geo) && geo.View() == Geolocation.GeoState(None, None, false)
      ensures awaits == [] && requests == [] && geo.awaits == []
    {
      weather, loadingState, appError, searchQuery, isLoading := None, Idle, None, "", false;
      geo := new Geolocation.Resolver();
      awaits, requests := [], [];
    }

    method SetError(e: AppError)
      modifies this
      ensures View() == Failed(old(View()), e)
      ensures unchanged(this`awaits, this`requests)
    {
      appError := Some(e);
      loadingState := Error;
      isLoading := false;
    }

    /** Marks the start of an external call and records what observers see meanwhile. */
    method Begin(phase: LoadingState)
      requires Valid() && phase in {LoadingGeo, LoadingWeather}
      modifies this
      ensures Valid() && View() == Starting(old(View()), phase)
      ensures awaits == old(awaits) + [View()] && requests == old(requests)
    {
      loadingState := phase;
      isLoading := true;
      appError := None;
      awaits := awaits + [View()];
    }

    /** `loadWeatherByCoords`. */
    method LoadWeatherByCoords(coords: Coordinates, reply: WeatherApi.Reply)
      requires Valid() && WeatherApi.WellFormed(reply)
      modifies this
      ensures Valid()
      ensures var start := Starting(old(View()), LoadingWeather);
        && awaits == old(awaits) + [start]
        && requests == old(requests) + [WeatherApi.ByCoordinates(coords.lat, coords.lon)]
        && View() == Fetched(start, WeatherApi.FetchByCoordinates(coords, reply).outcome)
    {
      Begin(LoadingWeather);
      var x := WeatherApi.FetchByCoordinates(coords, reply);
      Complete(x, false);
    }

    /**
     * The writes after an awaited gateway call settles (the try, catch and
     * finally blocks); the city search also clears its query on success.
     */
    method Complete(x: WeatherApi.Exchange, clearQuery: bool)
      requires x.sent.Some?
      modifies this
      ensures View() == if clearQuery then Searched(old(View()), x.outcome) else Fetched(old(View()), x.outcome)
      ensures awaits == old(awaits) && requests == old(requests) + [x.sent.value]
    {
      requests := requests + [x.sent.value];
      match x.outcome {
        case Ok(d) =>
          weather := Some(d);
          loadingState := Success;
          if clearQuery {
            searchQuery := "";
          }
        case Err(e) =>
          SetError(e);
      }
      isLoading := false;
    }

    /**
     * The part of `initWeather` after the resolver has settled with `coords`,
     * `geoErr` being what the resolver holds in `geoError` at that moment.
     */
    method ResumeInit(coords: Option<Coordinates>, geoErr: Option<AppError>, reply: WeatherApi.Reply)
      requires Valid() && WeatherApi.WellFormed(reply)
      modifies this
      ensures Valid()
      ensures coords.None? ==>
                && awaits == old(awaits) && requests == old(requests)
                && View() == Failed(old(View()), if geoErr.Some? then geoErr.value else LocationFallbackError)
      ensures coords.Some? ==>
                var start := Starting(old(View()), LoadingWeather);
                && awaits == old(awaits) + [start]
                && requests == old(requests) + [WeatherApi.ByCoordinates(coords.value.lat, coords.value.lon)]
                && View() == Fetched(start, WeatherApi.FetchByCoordinates(coords.value, reply).outcome)
    {
      if coords.None? {
        if geoErr.Some? {
          SetError(geoErr.value);
        } else {
          SetError(LocationFallbackError);
        }
        return;
      }
      LoadWeatherByCoords(coords.value, reply);
    }

    /**
     * `initWeather`: locate, then fetch by coordinates. When the resolver
     * fails, its own error is reported (the fallback message is never used)
     * and the gateway is not called.
     */
    method InitWeather(platform: Geolocation.Platform, reply: WeatherApi.Reply)
      requires Valid() && WeatherApi.WellFormed(reply)
      modifies this, geo
      ensures Valid()
      ensures geo.View() == Geolocation.AfterDetect(old(geo.View()), platform)
      ensures geo.awaits == old(geo.awaits) +
                (if platform.Unsupported? then [] else [Geolocation.GeoState(old(geo.coordinates), None, true)])
      ensures View() == Initialized(old(View()), Geolocation.Resolve(platform), reply)
      ensures var located := Geolocation.Resolve(platform);
        var locating := Starting(old(View()), LoadingGeo);
        && (located.Err? ==> awaits == old(awaits) + [locating] && requests == old(requests))
        && (located.Ok? ==>
              && awaits == old(awaits) + [locating, Starting(old(View()), LoadingWeather)]
              && requests == old(requests) + [WeatherApi.ByCoordinates(located.value.lat, located.value.lon)])
    {
      Begin(LoadingGeo);
      var coords := geo.DetectLocation(platform);
      ResumeInit(coords, geo.geoError, reply);
    }

    /**
     * `searchByCity`: nothing happens for a blank query; otherwise one
     * gateway call with the trimmed query, after which the query is cleared
     * on success and kept on failure.
     */
    method SearchByCity(reply: WeatherApi.Reply)
      requires Valid() && WeatherApi.WellFormed(reply)
      modifies this
      ensures Valid()
      ensures JsText.Blank(old(searchQuery)) ==>
                View() == old(View()) && awaits == old(awaits) && requests == old(requests)
      ensures !JsText.Blank(old(searchQuery)) ==>
                var start := Starting(old(View()), LoadingWeather);
                var outcome := WeatherApi.FetchByCity(old(searchQuery), reply).outcome;
                && awaits == old(awaits) + [start]
                && requests == old(requests) + [WeatherApi.ByCity(JsText.Trim(old(searchQuery)))]
                && View() == Searched(start, outcome)
    {
      if JsText.Trim(searchQuery) == [] {
        return;
      }
      Begin(LoadingWeather);
      var x := WeatherApi.FetchByCity(searchQuery, reply);
      Complete(x, true);
    }

    /** `retryGeolocation`: exactly `initWeather`, from the current state. */
    method RetryGeolocation(platform: Geolocation.Platform, reply: WeatherApi.Reply)
      requires Valid() && WeatherApi.WellFormed(reply)
      modifies this, geo
      ensures Valid()
      ensures geo.View() == Geolocation.AfterDetect(old(geo.View()), platform)
      ensures geo.awaits == old(geo.awaits) +
                (if platform.Unsupported? then [] else [Geolocation.GeoState(old(geo.coordinates), None, true)])
      ensures View() == Initialized(old(View()), Geolocation.Resolve(platform), reply)
      ensures var located := Geolocation.Resolve(platform);
        var locating := Starting(old(View()), LoadingGeo);
        && (located.Err? ==> awaits == old(awaits) + [locating] && requests == old(requests))
        && (located.Ok? ==>
              && awaits == old(awaits) + [locating, Starting(old(View()), LoadingWeather)]
              && requests == old(requests) + [WeatherApi.ByCoordinates(located.value.lat, located.value.lon)])
    {
      InitWeather(platform, reply);
    }
  }

  /** Every entry point that makes a call leaves the orchestrator settled. */
  lemma SearchSettles(s: State, reply: WeatherApi.Reply)
    requires WeatherApi.WellFormed(reply) && !JsText.Blank(s.searchQuery)
    ensures Settled(Searched(Starting(s, LoadingWeather), WeatherApi.FetchByCity(s.searchQuery, reply).outcome))
  {
  }

  /**
   * A whitespace-only query never reaches the gateway's own guard through the
   * orchestrator: whenever the orchestrator calls the gateway, the gateway
   * issues its request.
   */
  lemma SearchAlwaysRequests(query: string, reply: WeatherApi.Reply)
    requires WeatherApi.WellFormed(reply) && JsText.Trim(query) != []
    ensures WeatherApi.FetchByCity(query, reply).sent == Some(WeatherApi.ByCity(JsText.Trim(query)))
    ensures WeatherApi.FetchByCity(query, reply).outcome == WeatherApi.Settle(reply)
  {
  }

  /**
   * A worked example: the resolver finds (55.75, 37.62) and the provider
   * reports Moscow at 20.4 degrees; the orchestrator ends in SUCCESS showing 20.
   */
  lemma MoscowExample(wind: Wind, condition: WeatherCondition)
    ensures var response := WeatherApi.ApiResponse(
        Coordinates(55.75, 37.62), [condition],
        WeatherApi.MainReadings(20.4, 19.6, 18.0, 21.5, 40.0, 1012.0, None),
        wind, WeatherApi.SunAndCountry(1700000000, 1700030000, "RU"), "Moscow", 1700010000);
      var t := Initialized(Initial, Geolocation.Resolve(Geolocation.Position(55.75, 37.62)), WeatherApi.Delivered(response));
      && t.loadingState == Success && t.appError == None && !t.isLoading
      && t.weather.Some? && t.weather.value.cityName == "Moscow" && t.weather.value.temperature.temp == 20
  {
  }
}
