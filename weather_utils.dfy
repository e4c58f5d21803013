/**
 * The presentation lookups (src/composables/useWeatherUtils.ts): the
 * gradient theme per weather condition, the icon URL, and the values the
 * view derives from the current snapshot, including their fallbacks when
 * there is no snapshot.
 *
 * Time formatting is locale-dependent and is a parameter `formatTime`.
 */
module WeatherUtils {
  import opened WeatherTypes

  datatype Theme = Theme(primary: string, secondary: string, accent: string)

  /** The theme per `main` condition. */
  const Themes: map<string, Theme> := map[
    "Clear" := Theme("#f7971e", "#ffd200", "#fff7a1"),
    "Clouds" := Theme("#6d8b9c", "#a8c8d8", "#dce9f0"),
    "Atmosphere" := Theme("#8e9eab", "#b8c8d4", "#e0e8ec"),
    "Drizzle" := Theme("#4a7fa5", "#7ab0d4", "#b8d8ee"),
    "Rain" := Theme("#2c5f8a", "#4a90b8", "#7cb8dc"),
    "Snow" := Theme("#c5d5e8", "#dfe9f3", "#f0f4f8"),
    "Thunderstorm" := Theme("#1a1a2e", "#3d3d6b", "#7b7bb5")
  ]

  const DefaultTheme := Theme("#4a90b8", "#7cb8dc", "#b8d8ee")

  /** `getWeatherTheme`: the table's entry, or the default for an unlisted condition. */
  function ThemeFor(mainCondition: string): (t: Theme)
    ensures mainCondition in Themes ==> t == Themes[mainCondition]
    ensures mainCondition !in Themes ==> t == DefaultTheme
    ensures t == DefaultTheme || t in Themes.Values
  {
    if mainCondition in Themes then Themes[mainCondition] else DefaultTheme
  }

  /** The table lists exactly the seven condition groups. */
  lemma ThemeConditions()
    ensures Themes.Keys == {"Clear", "Clouds", "Atmosphere", "Drizzle", "Rain", "Snow", "Thunderstorm"}
  {
  }

  /** Each listed condition gets its own colours. */
  lemma KnownThemes()
    ensures ThemeFor("Clear") == Theme("#f7971e", "#ffd200", "#fff7a1")
    ensures ThemeFor("Clouds") == Theme("#6d8b9c", "#a8c8d8", "#dce9f0")
    ensures ThemeFor("Atmosphere") == Theme("#8e9eab", "#b8c8d4", "#e0e8ec")
    ensures ThemeFor("Drizzle") == Theme("#4a7fa5", "#7ab0d4", "#b8d8ee")
    ensures ThemeFor("Rain") == Theme("#2c5f8a", "#4a90b8", "#7cb8dc")
    ensures ThemeFor("Snow") == Theme("#c5d5e8", "#dfe9f3", "#f0f4f8")
    ensures ThemeFor("Thunderstorm") == Theme("#1a1a2e", "#3d3d6b", "#7b7bb5")
  {
  }

  // ---------------------------------------------------------------------
  // Icon URLs

  const IconBase := "https://openweathermap.org/img/wn/"
  const IconSuffix := "@2x.png"

  /** `getWeatherIconUrl`. */
  function IconUrl(iconCode: string): (url: string)
    ensures |url| == |IconBase| + |iconCode| + |IconSuffix|
    ensures IconBase <= url && url[|url| - |IconSuffix|..] == IconSuffix
    ensures url[|IconBase|..|url| - |IconSuffix|] == iconCode
  {
    IconBase + iconCode + IconSuffix
  }

  /** The icon code inside an icon URL, if it is one. */
  function IconCode(url: string): Option<string> {
    if |url| >= |IconBase| + |IconSuffix| && IconBase <= url && url[|url| - |IconSuffix|..] == IconSuffix
    then Some(url[|IconBase|..|url| - |IconSuffix|])
    else None
  }

  /** Every icon code gives a distinct URL, from which it can be read back ... */
  lemma IconRoundTrip(iconCode: string)
    ensures IconCode(IconUrl(iconCode)) == Some(iconCode)
  {
  }

  /** ... and every URL of that shape is the URL of the code read from it. */
  lemma IconCodeRoundTrip(url: string, iconCode: string)
    requires IconCode(url) == Some(iconCode)
    ensures IconUrl(iconCode) == url
  {
  }

  // ---------------------------------------------------------------------
  // The background gradient

  const GradientHead := "linear-gradient(135deg, "
  const FirstStop := " 0%, "
  const SecondStop := " 50%, "
  const LastStop := " 100%)"

  /** Every colour of the themes is written as "#rrggbb". */
  const ColourLength := 7

  predicate HexSized(t: Theme) {
    |t.primary| == ColourLength && |t.secondary| == ColourLength && |t.accent| == ColourLength
  }

  /** What is left of `s` after its prefix `w`, if it starts with it. */
  function After(w: string, s: string): Option<string> {
    if w <= s then Some(s[|w|..]) else None
  }

  lemma AfterPrefix(w: string, rest: string)
    ensures After(w, w + rest) == Some(rest)
  {
    assert (w + rest)[..|w|] == w;
  }

  lemma ColourFirst(c: string, rest: string)
    ensures (c + rest)[..|c|] == c && (c + rest)[|c|..] == rest
  {
  }

  /** Reads the three colour stops back from a background value. */
  function ColourStops(s: string): Option<Theme> {
    match After(GradientHead, s)
    case None => None
    case Some(r1) =>
      if |r1| < ColourLength then None else
      match After(FirstStop, r1[ColourLength..])
      case None => None
      case Some(r2) =>
        if |r2| < ColourLength then None else
        match After(SecondStop, r2[ColourLength..])
        case None => None
        case Some(r3) =>
          if |r3| < ColourLength || r3[ColourLength..] != LastStop then None
          else Some(Theme(r1[..ColourLength], r2[..ColourLength], r3[..ColourLength]))
  }

  /**
   * The CSS `background` value of a theme (grouped to the right, for the
   * proof). It lists primary, secondary and accent, in that order, at 0%,
   * 50% and 100%, and reads back as its theme.
   */
  function Background(t: Theme): (b: string)
    ensures HexSized(t) ==> ColourStops(b) == Some(t)
  {
    var rest3 := t.accent + LastStop;
    var rest2 := t.secondary + (SecondStop + rest3);
    var rest1 := t.primary + (FirstStop + rest2);
    AfterPrefix(GradientHead, rest1);
    ColourFirst(t.primary, FirstStop + rest2);
    AfterPrefix(FirstStop, rest2);
    ColourFirst(t.secondary, SecondStop + rest3);
    AfterPrefix(SecondStop, rest3);
    ColourFirst(t.accent, LastStop);
    GradientHead + rest1
  }

  /** Every colour of the table and of the default has the "#rrggbb" length. */
  lemma ThemesHexSized()
    ensures HexSized(DefaultTheme)
    ensures forall k | k in Themes :: HexSized(Themes[k])
  {
  }

  // ---------------------------------------------------------------------
  // Derived values

  datatype Computeds = Computeds(
    theme: Theme,
    sunriseFormatted: string,
    sunsetFormatted: string,
    iconUrl: string,
    backgroundStyle: string)

  const NoTime := "—"

  /** `useWeatherComputeds`, evaluated for the current snapshot. */
  function Derive(weather: Option<WeatherData>, formatTime: int -> string): (c: Computeds)
    ensures weather.None? ==>
              c.theme == DefaultTheme && c.sunriseFormatted == NoTime && c.sunsetFormatted == NoTime && c.iconUrl == ""
    ensures weather.Some? ==>
              && c.theme == ThemeFor(weather.value.condition.main)
              && c.sunriseFormatted == formatTime(weather.value.sunrise)
              && c.sunsetFormatted == formatTime(weather.value.sunset)
              && IconCode(c.iconUrl) == Some(weather.value.condition.icon)
    ensures ColourStops(c.backgroundStyle) == Some(c.theme)
  {
    var theme := if weather.None? then DefaultTheme else ThemeFor(weather.value.condition.main);
    ThemesHexSized();
    match weather
    case None => Computeds(theme, NoTime, NoTime, "", Background(theme))
    case Some(w) =>
      IconRoundTrip(w.condition.icon);
      Computeds(theme, formatTime(w.sunrise), formatTime(w.sunset), IconUrl(w.condition.icon), Background(theme))
  }
}
