/**
 * The weather gateway (src/services/weatherApi.ts): the two fetch operations
 * over the HTTP transport, the normalisation of the provider's response and
 * the classification of transport failures into AppErrors.
 *
 * The transport is not modelled; its answer to the one request a fetch
 * issues is an input `Reply`, and the request itself is part of the result,
 * so that "no request was issued" is observable.
 */
module WeatherApi {
  import opened WeatherTypes
  import JsText

  // ---------------------------------------------------------------------
  // The provider's response (the `/weather` endpoint)

  datatype MainReadings = MainReadings(
    temp: real, feelsLike: real, tempMin: real, tempMax: real,
    humidity: real, pressure: real, visibility: Option<real>)

  datatype SunAndCountry = SunAndCountry(sunrise: int, sunset: int, country: string)

  datatype ApiResponse = ApiResponse(
    coord: Coordinates,
    weather: seq<WeatherCondition>,
    main: MainReadings,
    wind: Wind,
    sys: SunAndCountry,
    name: string,
    dt: int)

  /** The query parameters of a `/weather` request (besides key, units and language). */
  datatype Request = ByCoordinates(lat: real, lon: real) | ByCity(q: string)

  /** What the transport answers a request with. */
  datatype Reply = Delivered(response: ApiResponse) | Failed(failure: TransportFailure)

  /** A delivered response lists at least one weather condition. */
  predicate WellFormed(reply: Reply) {
    reply.Delivered? ==> |reply.response.weather| > 0
  }

  /** One call of a fetch operation: the request it issued, if any, and how it settled. */
  datatype Exchange = Exchange(sent: Option<Request>, outcome: Result<WeatherData>)

  // ---------------------------------------------------------------------
  // Normalisation

  /** `n` is `Math.round(x)`: the nearest integer, halves rounding up. */
  predicate RoundsTo(x: real, n: int) {
    n as real - 0.5 <= x < n as real + 0.5
  }

  function Round(x: real): (n: int)
    ensures RoundsTo(x, n)
    ensures forall m: int :: RoundsTo(x, m) ==> m == n
  {
    (x + 0.5).Floor
  }

  /** Whole-degree readings are stored unchanged. */
  lemma RoundIntegral(n: int)
    ensures Round(n as real) == n
  {
  }

  function Normalize(r: ApiResponse): (d: WeatherData)
    requires |r.weather| > 0
    ensures d.cityName == r.name && d.country == r.sys.country
    ensures d.coordinates == r.coord && d.condition == r.weather[0]
    ensures d.humidity == r.main.humidity && d.pressure == r.main.pressure
    ensures d.wind == r.wind
    ensures d.sunrise == r.sys.sunrise && d.sunset == r.sys.sunset && d.updatedAt == r.dt
    ensures RoundsTo(r.main.temp, d.temperature.temp)
    ensures RoundsTo(r.main.feelsLike, d.temperature.feelsLike)
    ensures RoundsTo(r.main.tempMin, d.temperature.tempMin)
    ensures RoundsTo(r.main.tempMax, d.temperature.tempMax)
  {
    WeatherData(
      r.name, r.sys.country, r.coord, r.weather[0],
      Temperature(Round(r.main.temp), Round(r.main.feelsLike), Round(r.main.tempMin), Round(r.main.tempMax)),
      r.main.humidity, r.main.pressure, r.wind,
      r.sys.sunrise, r.sys.sunset, r.dt)
  }

  // ---------------------------------------------------------------------
  // Error classification

  const NoConnectionMessage := "Нет соединения с интернетом. Проверьте подключение и попробуйте снова."
  const InvalidKeyMessage := "Некорректный API ключ. Проверьте .env файл."
  const CityNotFoundMessage := "Город не найден. Проверьте название и попробуйте снова."
  const RateLimitMessage := "Превышён лимит запросов. Попробуйте через несколько минут."
  const ServerErrorPrefix := "Ошибка сервера: "
  const UnknownErrorMessage := "Произошла неизвестная ошибка."
  const EmptyCityMessage := "Введите название города."

  /** `mapAxiosError`: every failure becomes an AppError that keeps it as its cause. */
  function MapTransportError(f: TransportFailure): (e: AppError)
    ensures e.originalError == Some(TransportCause(f))
    ensures e.kind == NetworkError <==> f == NoResponse
    ensures e.kind == CityNotFound <==> f == HttpStatus(404)
    ensures e.kind == Unknown <==> f == NotAxios
    ensures e.kind == ApiError <==> f.HttpStatus? && f.status != 404
    ensures f == NoResponse ==> e.message == NoConnectionMessage
    ensures f == HttpStatus(401) ==> e.message == InvalidKeyMessage
    ensures f == HttpStatus(404) ==> e.message == CityNotFoundMessage
    ensures f == HttpStatus(429) ==> e.message == RateLimitMessage
    ensures f == NotAxios ==> e.message == UnknownErrorMessage
    ensures f.HttpStatus? && f.status !in {401, 404, 429} ==>
              e.message == ServerErrorPrefix + JsText.IntToString(f.status)
  {
    match f
    case NotAxios => AppError(Unknown, UnknownErrorMessage, Some(TransportCause(f)))
    case NoResponse => AppError(NetworkError, NoConnectionMessage, Some(TransportCause(f)))
    case HttpStatus(status) =>
      if status == 401 then AppError(ApiError, InvalidKeyMessage, Some(TransportCause(f)))
      else if status == 404 then AppError(CityNotFound, CityNotFoundMessage, Some(TransportCause(f)))
      else if status == 429 then AppError(ApiError, RateLimitMessage, Some(TransportCause(f)))
      else AppError(ApiError, ServerErrorPrefix + JsText.IntToString(status), Some(TransportCause(f)))
  }

  /** The status of a generic server error can be read back from its message. */
  lemma ServerErrorNamesStatus(status: int)
    requires status !in {401, 404, 429}
    ensures var m := MapTransportError(HttpStatus(status)).message;
      |m| > |ServerErrorPrefix| && ServerErrorPrefix <= m &&
      JsText.ParseInt(m[|ServerErrorPrefix|..]) == status
  {
    var m := MapTransportError(HttpStatus(status)).message;
    assert m[|ServerErrorPrefix|..] == JsText.IntToString(status);
    JsText.IntRoundTrip(status);
  }

  // ---------------------------------------------------------------------
  // The fetch operations

  /** How a request settles: the normalised snapshot, or the classified failure. */
  function Settle(reply: Reply): (r: Result<WeatherData>)
    requires WellFormed(reply)
    ensures r.Ok? <==> reply.Delivered?
    ensures reply.Delivered? ==> r.value == Normalize(reply.response)
    ensures reply.Failed? ==> r.error == MapTransportError(reply.failure)
    ensures reply.Failed? ==> r.error.originalError == Some(TransportCause(reply.failure))
  {
    match reply
    case Delivered(response) => Ok(Normalize(response))
    case Failed(failure) => Err(MapTransportError(failure))
  }

  /** `fetchWeatherByCoordinates`: always issues the request. */
  function FetchByCoordinates(coords: Coordinates, reply: Reply): (x: Exchange)
    requires WellFormed(reply)
    ensures x.sent == Some(ByCoordinates(coords.lat, coords.lon))
    ensures reply.Delivered? ==> x.outcome == Ok(Normalize(reply.response))
    ensures reply.Failed? ==> x.outcome == Err(MapTransportError(reply.failure))
  {
    Exchange(Some(ByCoordinates(coords.lat, coords.lon)), Settle(reply))
  }

  /**
   * `fetchWeatherByCity`: a name that is blank is rejected before any
   * request; otherwise the query is the trimmed name.
   */
  function FetchByCity(cityName: string, reply: Reply): (x: Exchange)
    requires WellFormed(reply)
    ensures x.sent.None? <==> JsText.Blank(cityName)
    ensures JsText.Blank(cityName) ==> x.outcome == Err(AppError(ApiError, EmptyCityMessage, None))
    ensures !JsText.Blank(cityName) ==> x.sent == Some(ByCity(JsText.Trim(cityName)))
    ensures !JsText.Blank(cityName) && reply.Delivered? ==> x.outcome == Ok(Normalize(reply.response))
    ensures !JsText.Blank(cityName) && reply.Failed? ==> x.outcome == Err(MapTransportError(reply.failure))
  {
    var trimmed := JsText.Trim(cityName);
    if trimmed == [] then Exchange(None, Err(AppError(ApiError, EmptyCityMessage, None)))
    else Exchange(Some(ByCity(trimmed)), Settle(reply))
  }

  /** The query the gateway sends has no whitespace at either end. */
  lemma CityQueryTrimmed(cityName: string, reply: Reply)
    requires WellFormed(reply)
    requires FetchByCity(cityName, reply).sent.Some?
    ensures var q := FetchByCity(cityName, reply).sent.value;
      q.ByCity? && q.q != [] && JsText.Trimmed(q.q) && JsText.Trim(q.q) == q.q
  {
  }

  /** Padding a name with whitespace changes neither the request nor its outcome. */
  lemma CityPaddingIrrelevant(a: string, name: string, b: string, reply: Reply)
    requires WellFormed(reply)
    requires JsText.Blank(a) && JsText.Blank(b) && JsText.Trimmed(name) && name != []
    ensures FetchByCity(a + name + b, reply) == FetchByCity(name, reply)
  {
    JsText.TrimPadded(a, name, b);
    JsText.TrimKeepsTrimmed(name);
  }
}
