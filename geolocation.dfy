/**
 * The location resolver (src/composables/useGeolocation.ts): one-shot
 * position lookup through the platform's geolocation service, with the
 * platform's failures classified into AppErrors.
 *
 * The platform is an input `Platform`: either it has no geolocation service,
 * or its single position request ends with a position or an error code.
 */
module Geolocation {
  import opened WeatherTypes

  datatype Platform =
    | Unsupported
    | Position(latitude: real, longitude: real)
    | PositionError(code: int)

  /** The error codes of GeolocationPositionError in the W3C Geolocation API. */
  const PermissionDenied := 1
  const PositionUnavailable := 2
  const Timeout := 3

  const UnsupportedMessage := "Геолокация не поддерживается вашим браузером."
  const DeniedMessage := "Доступ к геолокации запрещен. Введите название города вручную."
  const UnavailableMessage := "Не удалось определить местоположение. Введите город вручную."
  const TimeoutMessage := "Таймаут определения геолокации. Введите город вручную."
  const UnknownPositionMessage := "Неизвестная ошибка геолокации."

  /** The error recorded when the platform has no geolocation service. */
  const UnsupportedError := AppError(GeolocationUnavailable, UnsupportedMessage, None)

  /** The `switch` over the platform's error code. */
  function PositionErrorToAppError(code: int): (e: AppError)
    ensures e.originalError == Some(PositionCause(code))
    ensures e.kind == GeolocationDenied <==> code == PermissionDenied
    ensures e.kind == GeolocationTimeout <==> code == Timeout
    ensures e.kind == GeolocationUnavailable <==> code != PermissionDenied && code != Timeout
    ensures code == PermissionDenied ==> e.message == DeniedMessage
    ensures code == PositionUnavailable ==> e.message == UnavailableMessage
    ensures code == Timeout ==> e.message == TimeoutMessage
    ensures code !in {PermissionDenied, PositionUnavailable, Timeout} ==> e.message == UnknownPositionMessage
  {
    if code == PermissionDenied then AppError(GeolocationDenied, DeniedMessage, Some(PositionCause(code)))
    else if code == PositionUnavailable then AppError(GeolocationUnavailable, UnavailableMessage, Some(PositionCause(code)))
    else if code == Timeout then AppError(GeolocationTimeout, TimeoutMessage, Some(PositionCause(code)))
    else AppError(GeolocationUnavailable, UnknownPositionMessage, Some(PositionCause(code)))
  }

  /** Only geolocation kinds come out of the resolver. */
  lemma PositionErrorsAreGeolocationErrors(code: int)
    ensures PositionErrorToAppError(code).kind in {GeolocationDenied, GeolocationUnavailable, GeolocationTimeout}
  {
  }

  /** What `detectLocation` settles with: coordinates, or the error it leaves in `geoError`. */
  function Resolve(platform: Platform): (r: Result<Coordinates>)
    ensures r.Ok? <==> platform.Position?
    ensures platform.Position? ==> r.value == Coordinates(platform.latitude, platform.longitude)
    ensures platform.Unsupported? ==> r.error == UnsupportedError
    ensures platform.PositionError? ==> r.error == PositionErrorToAppError(platform.code)
    ensures r.Err? ==> r.error.kind in {GeolocationDenied, GeolocationUnavailable, GeolocationTimeout}
  {
    match platform
    case Unsupported => Err(UnsupportedError)
    case Position(latitude, longitude) => Ok(Coordinates(latitude, longitude))
    case PositionError(code) => Err(PositionErrorToAppError(code))
  }

  /** The resolver's three fields. */
  datatype GeoState = GeoState(coordinates: Option<Coordinates>, geoError: Option<AppError>, isGeoLoading: bool)

  /** The resolver's fields once `detectLocation` has settled, from those it started with. */
  function AfterDetect(s: GeoState, platform: Platform): (t: GeoState)
    ensures platform.Unsupported? ==> t.isGeoLoading == s.isGeoLoading
    ensures !platform.Unsupported? ==> !t.isGeoLoading
    ensures Resolve(platform).Ok? ==>
              t.coordinates == Some(Resolve(platform).value) && t.geoError == None
    ensures Resolve(platform).Err? ==>
              t.coordinates == s.coordinates && t.geoError == Some(Resolve(platform).error)
  {
    match platform
    case Unsupported => s.(geoError := Some(UnsupportedError))
    case Position(latitude, longitude) =>
      GeoState(Some(Coordinates(latitude, longitude)), None, false)
    case PositionError(code) =>
      s.(geoError := Some(PositionErrorToAppError(code)), isGeoLoading := false)
  }

  /** `useGeolocation()`: the resolver and its fields. */
  class Resolver {
    var coordinates: Option<Coordinates>
    var geoError: Option<AppError>
    var isGeoLoading: bool
    /** The fields as they stood while each platform request was outstanding. */
    ghost var awaits: seq<GeoState>

    function View(): GeoState
      reads this
    {
      GeoState(coordinates, geoError, isGeoLoading)
    }

    constructor ()
      ensures View() == GeoState(None, None, false) && awaits == []
    {
      coordinates, geoError, isGeoLoading := None, None, false;
      awaits := [];
    }

    /**
     * `detectLocation`. Without a geolocation service it records the error
     * and settles at once, issuing no request; otherwise it marks itself busy
     * and clears the old error, issues one request, and settles with its
     * answer. When it settles with no coordinates, `geoError` is set.
     */
    method DetectLocation(platform: Platform) returns (coords: Option<Coordinates>)
      modifies this
      ensures View() == AfterDetect(old(View()), platform)
      ensures coords == (if Resolve(platform).Ok? then Some(Resolve(platform).value) else None)
      ensures coords.None? ==> geoError.Some?
      ensures platform.Unsupported? ==> awaits == old(awaits)
      ensures !platform.Unsupported? ==>
                awaits == old(awaits) + [GeoState(old(coordinates), None, true)]
    {
      if platform.Unsupported? {
        geoError := Some(UnsupportedError);
        return None;
      }

      isGeoLoading := true;
      geoError := None;
      awaits := awaits + [View()];

      match platform {
        case Position(latitude, longitude) =>
          var c := Coordinates(latitude, longitude);
          coordinates := Some(c);
          isGeoLoading := false;
          coords := Some(c);
        case PositionError(code) =>
          isGeoLoading := false;
          geoError := Some(PositionErrorToAppError(code));
          coords := None;
      }
    }
  }
}
