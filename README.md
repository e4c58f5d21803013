# Weather client core, modelled in Dafny

This project models the logic of a browser weather client. The client finds
the user's location through the platform's geolocation service, or takes a
city name typed by the user. It fetches the current weather from
OpenWeatherMap, normalises the response, classifies every failure into one of
seven application error kinds, and keeps a small loading-state machine for
the view.

The project models four parts, one Dafny module each, plus two shared modules:

- `WeatherTypes` (`types.dfy`): the records, the seven-kind `AppErrorType`, the
  five-value `LoadingState`, and `AppError` (its `type` field is called `kind`,
  because `type` is a Dafny keyword).
- `JsText` (`text.dfy`): the two JavaScript string operations the core uses.
  These are `String.prototype.trim`, over ECMAScript's WhiteSpace and
  LineTerminator code points, and the decimal rendering of an integer inside a
  template string.
- `WeatherApi` (`weather_api.dfy`, pure functions): the gateway. It covers
  response normalisation (`Normalize`), the closed decision table that
  classifies transport failures (`MapTransportError`), and the two fetch
  operations. Both fetch operations return the request they issued, if any,
  together with their outcome.
- `Geolocation` (`geolocation.dfy`, a class): the location resolver. Its three
  fields are `coordinates`, `geoError` and `isGeoLoading`. `DetectLocation`
  takes the platform's answer as an input.
- `Weather` (`weather.dfy`, a class): the orchestrator. Its five fields are
  `weather`, `loadingState`, `appError`, `searchQuery` and `isLoading`. It owns
  a resolver and has the entry points `InitWeather`, `SearchByCity` and
  `RetryGeolocation`. Each entry point takes the outside world's answers as
  inputs and is specified against pure transition functions on the `State`
  datatype (`Starting`, `Failed`, `Fetched`, `Searched`, `Initialized`).
- `WeatherUtils` (`weather_utils.dfy`, pure functions): the condition-to-theme
  table with its default, the icon URL, the gradient string, and the values
  derived from the current snapshot.

The outside world is passed in as data:

- The HTTP transport's answer to a request is a `Reply`: `Delivered(response)`,
  or `Failed(NotAxios | NoResponse | HttpStatus(status))`.
- The platform's geolocation answer is a `Platform`: `Unsupported`,
  `Position(latitude, longitude)` or `PositionError(code)`. The codes 1, 2 and 3
  are those of GeolocationPositionError in the W3C Geolocation API.
- Locale-dependent time formatting is the function parameter `formatTime`.

Two ghost logs make the intermediate states and the side effects visible:

- `awaits`, on both classes, records the fields as they stood at each await,
  with one entry per external call. It captures the "starting" state an entry
  point publishes and shows that no call was made.
- `requests`, on the orchestrator, records every request that reached the
  weather transport.

Floating-point numbers are `real`. `Math.round` is modelled exactly on reals,
as "nearest integer, halves up".

The orchestrator's `initWeather` falls back to a synthesised
GEOLOCATION_UNAVAILABLE error when the resolver returns no coordinates and no
error. `ResumeInit` models that continuation for any resolver outcome.
`InitWeather`'s contract proves that, with this resolver, the fallback is never
used: the resolver always leaves an error when it returns no coordinates.

The city query is trimmed twice, as in the source: once by the orchestrator's
guard (src/composables/useWeather.ts:80) and again by the gateway
(src/services/weatherApi.ts:118). `Weather.SearchAlwaysRequests` shows the two
guards agree.

## Model

| member | source | states |
|---|---|---|
| `JsText.Trim` | src/services/weatherApi.ts:118 | the trimmed name has no whitespace at either end, is a contiguous slice of the input, and is empty exactly when the input is all whitespace |
| `JsText.TrimKeepsTrimmed` | src/services/weatherApi.ts:118 | a string with no whitespace at its ends is unchanged by trim |
| `JsText.TrimIdempotent` | src/composables/useWeather.ts:80 | trimming an already trimmed query changes nothing |
| `JsText.TrimPadded` | src/services/weatherApi.ts:118 | any whitespace added around a trimmed non-empty string is exactly what trim removes |
| `JsText.IntToString` | src/services/weatherApi.ts:83 | `${status}` is a minus sign for negative numbers followed by a non-empty run of decimal digits with no leading zero |
| `JsText.DecimalRoundTrip` | src/services/weatherApi.ts:83 | the decimal numeral of a natural number reads back to that number |
| `JsText.IntRoundTrip` | src/services/weatherApi.ts:83 | the rendered status number reads back to the status |
| `WeatherApi.Round` | src/services/weatherApi.ts:26-29 | Math.round gives the unique integer n with n - 1/2 <= x < n + 1/2 |
| `WeatherApi.RoundIntegral` | src/services/weatherApi.ts:26-29 | a whole-degree reading is stored unchanged |
| `WeatherApi.Normalize` | src/services/weatherApi.ts:19-37 | name, country, coordinates, first condition, humidity, pressure, wind, sunrise, sunset and timestamp are copied unchanged; each of the four temperatures is the rounding of its reading |
| `WeatherApi.MapTransportError` | src/services/weatherApi.ts:41-93 | no response gives NETWORK_ERROR; 404, and only 404, gives CITY_NOT_FOUND; every other status gives API_ERROR, with the fixed messages for 401 and 429 and otherwise the "server error" prefix followed by the status; a non-transport error gives UNKNOWN; every result keeps the failure as `originalError` |
| `WeatherApi.ServerErrorNamesStatus` | src/services/weatherApi.ts:81-85 | the generic server-error message begins with the fixed prefix, and the status can be read back from what follows it |
| `WeatherApi.Settle` | src/services/weatherApi.ts:101-111 | the try/catch of both fetch operations: it resolves exactly when the response was delivered, to its normalisation; a failure is thrown as its classification, with the failure kept as `originalError` |
| `WeatherApi.FetchByCoordinates` | src/services/weatherApi.ts:100-112 | always issues one request with the coordinates; a delivered response resolves to its normalisation and a failure throws its classification |
| `WeatherApi.FetchByCity` | src/services/weatherApi.ts:117-136 | a blank name issues no request and throws API_ERROR "enter a city name" without a cause; otherwise the query is the trimmed name and the outcome is as for coordinates |
| `WeatherApi.CityQueryTrimmed` | src/services/weatherApi.ts:118-131 | every city query sent is non-empty and has no whitespace at either end |
| `WeatherApi.CityPaddingIrrelevant` | src/services/weatherApi.ts:118-131 | padding a name with whitespace changes neither the request nor the outcome |
| `Geolocation.PositionErrorToAppError` | src/composables/useGeolocation.ts:51-78 | PERMISSION_DENIED gives GEOLOCATION_DENIED, TIMEOUT gives GEOLOCATION_TIMEOUT, POSITION_UNAVAILABLE and every other code give GEOLOCATION_UNAVAILABLE, an unknown code with the generic message; each keeps the code as its cause |
| `Geolocation.PositionErrorsAreGeolocationErrors` | src/composables/useGeolocation.ts:51-78 | the resolver only produces the three geolocation kinds |
| `Geolocation.Resolve` | src/composables/useGeolocation.ts:24-81 | what `detectLocation` settles with: coordinates exactly when the platform gave a position, and those coordinates; the "not supported" error when there is no service; the classified code otherwise; every error is of a geolocation kind |
| `Geolocation.AfterDetect` | src/composables/useGeolocation.ts:22-90 | without support, only `geoError` changes and the busy flag is left as it was; otherwise the busy flag ends cleared; success stores the coordinates and leaves no error; failure keeps the old coordinates and stores the error |
| `Geolocation.Resolver.constructor` | src/composables/useGeolocation.ts:15-17 | no coordinates, no error, not busy |
| `Geolocation.Resolver.DetectLocation` | src/composables/useGeolocation.ts:22-90 | new fields as AfterDetect; returns the coordinates exactly on success; returning none implies `geoError` is set; without support no request is made; otherwise, while the request is outstanding, the resolver is busy with no error |
| `Weather.Starting` | src/composables/useWeather.ts:39-41 | before each await the status is the loading phase, the busy flag is set and no error is shown; the snapshot and the query are kept |
| `Weather.Failed` | src/composables/useWeather.ts:31-35 | setError stores the error, sets ERROR and clears the busy flag, keeping the snapshot and the query; the result is always settled |
| `Weather.Fetched` | src/composables/useWeather.ts:68-75 | on success the snapshot is stored as returned with SUCCESS; on failure the thrown error is stored unchanged with ERROR and the old snapshot is kept; the busy flag ends cleared; a call that started in flight ends settled |
| `Weather.Searched` | src/composables/useWeather.ts:86-94 | as Fetched, and the query is cleared on success and kept on failure |
| `Weather.Initialized` | src/composables/useWeather.ts:38-60 | the initial entry point always ends settled; when location fails, the resolver's error is shown and the snapshot is kept |
| `Weather.Orchestrator.constructor` | src/composables/useWeather.ts:22-28 | no snapshot, IDLE, no error, empty query, not busy, with a fresh resolver |
| `Weather.Orchestrator.SetError` | src/composables/useWeather.ts:31-35 | the fields become Failed of the old fields |
| `Weather.Orchestrator.Begin` | src/composables/useWeather.ts:82-84 | the fields become Starting of the old fields, and that state is what observers see during the call |
| `Weather.Orchestrator.Complete` | src/composables/useWeather.ts:68-75 | the fields become Fetched, or Searched for the city search, of the old fields; one gateway request is logged |
| `Weather.Orchestrator.LoadWeatherByCoords` | src/composables/useWeather.ts:63-76 | the call is observed in LOADING_WEATHER, one request is made with the coordinates, and the final fields are Fetched of that state and the gateway's outcome |
| `Weather.Orchestrator.ResumeInit` | src/composables/useWeather.ts:43-59 | no coordinates: ERROR with the resolver's error, or the synthesised GEOLOCATION_UNAVAILABLE when there is none, and no gateway call; coordinates: as LoadWeatherByCoords |
| `Weather.Orchestrator.InitWeather` | src/composables/useWeather.ts:38-60 | observed first in LOADING_GEO, busy, with no error; resolver failure ends in ERROR with the resolver's own error, the snapshot kept and no gateway call; resolver success passes through LOADING_WEATHER and ends as Fetched of the gateway outcome |
| `Weather.Orchestrator.SearchByCity` | src/composables/useWeather.ts:79-95 | a blank query changes no field, awaits nothing and calls no gateway; otherwise one request with the trimmed query, observed in LOADING_WEATHER, ending as Searched of the outcome |
| `Weather.Orchestrator.RetryGeolocation` | src/composables/useWeather.ts:98-100 | the same contract as InitWeather |
| `Weather.SearchSettles` | src/composables/useWeather.ts:86-94 | the final state of a city search that reaches the gateway is settled, on both paths |
| `Weather.SearchAlwaysRequests` | src/composables/useWeather.ts:80-87 | a query that passes the orchestrator's guard always passes the gateway's own guard and is sent trimmed |
| `Weather.MoscowExample` | src/composables/useWeather.ts:38-70 | coordinates (55.75, 37.62) and a Moscow reading of 20.4 degrees end in SUCCESS with the city stored and temperature 20 |
| `WeatherUtils.ThemeFor` | src/composables/useWeatherUtils.ts:79-81 | a listed condition gets its table entry; any other gets the default theme |
| `WeatherUtils.ThemeConditions` | src/composables/useWeatherUtils.ts:32-68 | the table lists exactly Clear, Clouds, Atmosphere, Drizzle, Rain, Snow and Thunderstorm |
| `WeatherUtils.KnownThemes` | src/composables/useWeatherUtils.ts:32-68 | each of the seven conditions gets its three listed colours |
| `WeatherUtils.IconUrl` | src/composables/useWeatherUtils.ts:20-22 | the URL is the fixed base, then the code, then "@2x.png" |
| `WeatherUtils.IconRoundTrip` | src/composables/useWeatherUtils.ts:20-22 | the icon code can be read back from its URL |
| `WeatherUtils.IconCodeRoundTrip` | src/composables/useWeatherUtils.ts:20-22 | every URL of that shape is the URL of the code read from it |
| `WeatherUtils.Background` | src/composables/useWeatherUtils.ts:106-108 | for "#rrggbb" colours, the gradient reads back through `ColourStops` as its theme: primary at 0%, secondary at 50% and accent at 100%, in that order |
| `WeatherUtils.ThemesHexSized` | src/composables/useWeatherUtils.ts:32-74 | every colour of the table and of the default is seven characters long, as "#rrggbb" is |
| `WeatherUtils.Derive` | src/composables/useWeatherUtils.ts:85-117 | with no snapshot: the default theme, "—" for sunrise and sunset, and an empty icon URL; otherwise: the condition's theme, the formatted times, and the icon URL of the condition's icon; the background always reads back to the theme |

## Left out

- The transport client is not modelled: its base URL, API key, `units`/`lang` parameters and 10-second timeout (src/services/weatherApi.ts:5-16). Only the reply to a request is an input.
- `WeatherApi.Normalize`: requires a response with at least one weather condition. The source reads `weather[0]` unchecked, which would give `undefined` for an empty list; the provider always sends one. The requirement carries over to every operation that takes a `Reply` (`WellFormed`).
- `NotAxios` carries no payload. For a non-transport exception the model keeps the kind of failure as `originalError`, not the thrown value itself.
- Floating-point behaviour: coordinates, readings and `Math.round` use exact reals, so IEEE rounding effects and negative zero are not modelled.
- `formatTime` (src/composables/useWeatherUtils.ts:7-14) depends on `Date` and the locale. It is the function parameter `formatTime`.
- `src/composables/useWeatherCards.ts` is not part of this model. It only formats floats for display cards.
- Vue reactivity (`ref`, `computed`) is modelled as plain fields and a pure function of the snapshot. The view's text field writes `searchQuery` directly.
- Concurrent or interleaved entry points, and the race on the shared fields, are not modelled: each entry point runs to completion.
- `WEATHER_THEMES` is a finite map over the seven keys. JavaScript's lookup of inherited object keys (such as `"constructor"`) is not modelled.
- The geolocation request options, an 8-second timeout and low accuracy (src/composables/useGeolocation.ts:84-87), are only passed to the platform and are not modelled.
- `webpack.config.js`, `eslint.config.js` and `src/main.ts` are build configuration and bootstrap code and are not part of this model.
