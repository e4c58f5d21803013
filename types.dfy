/**
 * The shared vocabulary of the weather client: the records the gateway
 * returns, the error taxonomy and the loading status (src/types/weather.ts).
 *
 * Floating-point quantities (coordinates, temperatures, humidity, pressure,
 * wind) are `real`s that the model only copies or rounds; timestamps and
 * identifiers are `int`s.
 */
module WeatherTypes {

  datatype Option<+T> = None | Some(value: T)

  /** An asynchronous call either resolves with a value or throws an AppError. */
  datatype Result<+T> = Ok(value: T) | Err(error: AppError)

  datatype Coordinates = Coordinates(lat: real, lon: real)

  datatype WeatherCondition = WeatherCondition(id: int, main: string, description: string, icon: string)

  /** Rounded temperatures, as stored in the normalised snapshot. */
  datatype Temperature = Temperature(temp: int, feelsLike: int, tempMin: int, tempMax: int)

  datatype Wind = Wind(speed: real, deg: real, gust: Option<real>)

  /** The normalised snapshot the rest of the application works with. */
  datatype WeatherData = WeatherData(
    cityName: string,
    country: string,
    coordinates: Coordinates,
    condition: WeatherCondition,
    temperature: Temperature,
    humidity: real,
    pressure: real,
    wind: Wind,
    sunrise: int,
    sunset: int,
    updatedAt: int)

  /** The seven error kinds of the application. */
  datatype AppErrorType =
    | GeolocationDenied
    | GeolocationUnavailable
    | GeolocationTimeout
    | CityNotFound
    | ApiError
    | NetworkError
    | Unknown

  /**
   * What an HTTP call through the transport can fail with: an exception that
   * is not a transport error at all, a transport error that carries no
   * response, or one that carries a response with the given status.
   */
  datatype TransportFailure = NotAxios | NoResponse | HttpStatus(status: int)

  /** The low-level failure an AppError was classified from (`originalError`). */
  datatype Cause = TransportCause(failure: TransportFailure) | PositionCause(code: int)

  /** An application error; `kind` is the source's `type` field. */
  datatype AppError = AppError(kind: AppErrorType, message: string, originalError: Option<Cause>)

  datatype LoadingState = Idle | LoadingGeo | LoadingWeather | Success | Error
}
