# SkyWave dashboard logic in Dafny

SkyWave is a weather dashboard. It shows three datasets from the
OpenWeatherMap API for a place:
- the current weather;
- the five-day forecast;
- an eight-entry hourly forecast.

A place is found by city name or by the device position. The last place, the
theme and the temperature unit are kept in the browser's local storage. This
project models the logic behind the page and proves what it does:

- `Api` (`api.dfy`): the six request URLs and how each call turns a reply into
  a payload or an error message. The network is a function from URL to reply.
- `Preferences` (`preferences.dfy`): the storage keys. It covers what a lookup
  remembers, which place the page resumes at start, and how the theme and
  unit are read and written.
- `Dashboard` (`dashboard.dfy`): the page state as a class, `Dashboard.App`.
  Its handlers update the state step by step, and each handler is proved equal
  to a pure transition on an `AppState` value. The transitions carry the
  lemmas: lookups are all-or-nothing, what is stored and when, refresh and
  retry routing, the toggles, and a consistency invariant. The module also
  holds the background gradient chosen for the weather and the theme.
- `Forecast` (`forecast.dfy`): the five-day panel. A `for` loop groups the
  forecast entries by calendar day into a sequence of groups and an index map,
  just as the component fills its dictionary. The loop is proved against
  reference definitions of the days of a list and the samples of each day.
- `Hourly` (`hourly.dfy`): the first eight entries and the rain-chance
  estimate.
- `Search` (`search.dfy`): the search field as a class. It covers the
  submit rule and the disabled flags of the form.
- `Units` (`units.dfy`): the Celsius/Fahrenheit display conversion. The
  forecast, hourly and current-weather panels share it.
- `Builtins` (`builtins.dfy`): the JavaScript string and number built-ins the
  logic relies on: `trim`, ASCII `toLowerCase`, `includes` and `Math.round`.
- `Provider` (`provider.dfy`): the payload shapes. `Wrappers` (`wrappers.dfy`)
  holds `Option` and `Result`.

Modelling choices:
- A calendar day is an integer counted from 1 January 1970, stored with each
  forecast entry. The weekday name is read from a seven-entry table.
- Coordinates are kept as the decimal text JavaScript renders for them. The
  request URLs and `JSON.stringify` both write that text.
- Each lookup is one atomic step, with the outcomes of its three calls given.

## Model

| member | source | states |
|---|---|---|
| Api.Url | src/utils/api.js:4-98 | Every request URL is the endpoint's path, then `q=<city>` or `lat=<lat>&lon=<lon>`, then `&appid=<key>&units=metric`. The hourly calls also end with `&cnt=8`. The city is inserted without encoding. |
| Api.HourlyUrlExtendsForecast | src/utils/api.js:68-98 | An hourly URL is the forecast URL for the same place with `&cnt=8` appended. |
| Api.ParseParams | src/utils/api.js:7 | Reading a location back from a query part gives a location whose query part is exactly that text. |
| Api.ParseParamsRoundTrip | src/utils/api.js:23 | The query part of any city reads back as the same location. So does that of coordinates whose two texts are non-empty numbers written with `0-9 + - . e` only. |
| Api.DecodeUrl | src/utils/api.js:36-66 | Decoding a URL yields only an endpoint and location that rebuild exactly that URL. |
| Api.DecodeUrlRoundTrip | src/utils/api.js:52-98 | No two calls share a URL: every request URL, for a city or for coordinates written as numbers, decodes back to its own endpoint and location. The three calls of one lookup therefore differ, and two places never collide. |
| Api.Fallback | src/utils/api.js:16-96 | The message of a failed call with no message of its own names its dataset. It is never empty and never "City not found". |
| Api.NotOkMessage | src/utils/api.js:10-12 | A non-OK reply's message is never empty. It is "City not found" exactly when the call was by name. |
| Api.NotOkMessages | src/utils/api.js:10-12 | A non-OK reply fails with "City not found" on every name-based call. On coordinate calls it fails with the fallback message of that dataset. |
| Api.Settle | src/utils/api.js:14-16 | A reply succeeds exactly when it is an OK response with a parsed body, and it then yields that body unchanged. A non-OK response fails with its message. A caught error, from the network or from reading the body of an OK response, keeps its own message, or takes the fallback when that message is empty. |
| Api.Get | src/utils/api.js:20-34 | One call fetches its own URL and settles the reply. It covers every branch: success, the non-OK message per endpoint, the message of a network error or of an unreadable body, or the fallback when that message is empty. Every failure carries a non-empty message. |
| Preferences.Truthy | src/App.jsx:69-70 | A stored value is used only when its key is present and the value is not empty. |
| Preferences.ParseCoords | src/App.jsx:77 | Parsing stored coordinates yields only coordinates whose JSON is exactly the stored text. |
| Preferences.CoordsJson | src/App.jsx:178-181 | The stored JSON of coordinates is an object: it opens with `{`, closes with `}`, and is as long as its fixed parts plus the two coordinate texts. |
| Preferences.ParseCoordsRoundTrip | src/App.jsx:178-181 | The JSON written for any well-formed coordinates parses back to the same coordinates. |
| Preferences.PersistCity | src/App.jsx:150-151 | After a city is remembered, the city key holds it and the coordinates key is gone. Every other key is untouched. |
| Preferences.PersistCoords | src/App.jsx:178-182 | After coordinates are remembered, the coordinates key holds their JSON and the city key is gone. Every other key is untouched. |
| Preferences.PersistIsExclusive | src/App.jsx:150-151 | A remembered city and remembered coordinates never coexist after either write. |
| Preferences.InitialQuery | src/App.jsx:68-83 | At start, a stored city wins. Stored coordinates come next and are used only when no city is stored. The device position is used only when neither is stored. Each choice is stated as an if-and-only-if. |
| Preferences.ResumeCity | src/App.jsx:73-75 | After a city is remembered, the next start searches that city. An empty name is falsy, so the next start detects the position instead. |
| Preferences.ResumeCoords | src/App.jsx:76-79 | After well-formed coordinates are remembered, the next start looks them up. |
| Preferences.InitialDark | src/App.jsx:27-32 | A non-empty stored theme decides: the page is dark exactly when that theme is "dark". Otherwise the system preference decides. |
| Preferences.InitialCelsius | src/App.jsx:33-36 | The unit is Celsius unless a non-empty stored value other than "celsius" exists. |
| Preferences.PreferencesReadBack | src/App.jsx:50-65 | The theme and unit the effects store read back as the same choice at the next start. |
| Units.ConvertTemp | src/components/Forecast.jsx:9-11 | The shown temperature is the integer nearest the exact reading. The reading is in Celsius, or converted to Fahrenheit first. |
| Units.FahrenheitLandmarks | src/components/Forecast.jsx:9-11 | Examples: 0 °C shows as 32 °F, 100 °C as 212 °F, and -40 as -40 in both units. |
| Units.ConvertTempMonotone | src/components/HourlyForecast.jsx:8-10 | Conversion never reverses the order of two temperatures. |
| Forecast.DayKeys | src/components/Forecast.jsx:17-32 | The day keys are distinct. A day is a key exactly when some entry falls on it. |
| Forecast.SamplesOn | src/components/Forecast.jsx:30-31 | A day's group holds only entries of that day. It is empty exactly when no entry falls on that day. |
| Forecast.SamplesOnAppend | src/components/Forecast.jsx:17-32 | Grouping distributes over concatenation, so each group keeps its entries in list order. |
| Forecast.FirstSample | src/components/Forecast.jsx:21-28 | A group starts with the first entry of its day in the list. |
| Forecast.DayKeysInFirstOccurrenceOrder | src/components/Forecast.jsx:35 | Days come in the order in which each first occurs in the list. |
| Forecast.EverySampleInOneGroup | src/components/Forecast.jsx:17-32 | The group sizes add up to the list length. With `SamplesOn`, every entry lands in exactly one group. |
| Forecast.MinOf | src/components/Forecast.jsx:38 | The low is one of the temperatures and no temperature is lower. |
| Forecast.MaxOf | src/components/Forecast.jsx:39 | The high is one of the temperatures and no temperature is higher. |
| Forecast.Summarize | src/components/Forecast.jsx:35-42 | A group's summary keeps the group's time and condition. Its low and high are temperatures of the group and bound all of them. Its icon is that of the middle entry. |
| Forecast.Summaries | src/components/Forecast.jsx:35-42 | One summary per group, in group order: the j-th summary is the summary of the j-th group. |
| Forecast.SummarizeDescribes | src/components/Forecast.jsx:35-42 | A day's summary has its first entry's time and condition. Its low and high bound every temperature of the day and are themselves temperatures of the day. Its icon is that of entry floor(n/2), which always exists. |
| Forecast.GetDailyForecast | src/components/Forecast.jsx:14-43 | The one-pass grouping loop with its index map produces one entry for each of the first five days (at most five), in order of first occurrence, each summarising its day. |
| Forecast.DailyForecast | src/components/Forecast.jsx:5 | Nothing is produced exactly when the forecast or its list is missing. Otherwise the result is the daily forecast of the list. |
| Forecast.DisplayedRangeOrdered | src/components/Forecast.jsx:38-39 | Every shown day's low is at or below its high, in either unit. |
| Forecast.FormatDay | src/components/Forecast.jsx:47-59 | The label is "Today" exactly for today and "Tomorrow" exactly for the next day. Any other day gets its short weekday name. |
| Forecast.WeekLabelsDistinct | src/components/Forecast.jsx:47-59 | No two days of the week starting today share a label. |
| Hourly.TodayHourly | src/components/HourlyForecast.jsx:6-37 | Nothing is shown exactly when the data or its list is missing. Otherwise the first min(8, n) entries are shown, in list order. |
| Hourly.HasVolume | src/components/HourlyForecast.jsx:21 | A rain volume counts only when it is present and non-zero, and every positive volume counts. |
| Hourly.CloudShare | src/components/HourlyForecast.jsx:24-33 | The first of "rain", "drizzle" and "thunderstorm" in the lower-cased condition wins, with shares 0.8, 0.6 and 0.9. The share is 0.3 exactly when none of them occurs. |
| Hourly.RainChance | src/components/HourlyForecast.jsx:19-34 | With a rain volume the chance is the integer nearest volume/3 × 100, capped at 100. Otherwise it is the integer nearest the condition's share of cloud cover. |
| Hourly.RainChanceIsPercentage | src/components/HourlyForecast.jsx:21-33 | With cloud cover in 0..100 and a non-negative volume, every branch gives a value in 0..100. |
| Hourly.HeavyRainSaturates | src/components/HourlyForecast.jsx:22 | A volume of 3 or more reads as 100. |
| Hourly.ZeroVolumeFallsThrough | src/components/HourlyForecast.jsx:21 | A volume of 0 counts as no volume, so the cloud-based estimate applies. |
| Hourly.RainChanceExamples | src/components/HourlyForecast.jsx:19-34 | Examples: 1.5 mm gives 50 whatever the sky. "Rain" under 75 % cloud with no volume gives 60. |
| Search.ControlsFor | src/components/SearchBar.jsx:47 | The text field and the location button are disabled exactly while loading. The search button is disabled exactly while loading or while the text is blank. |
| Search.SubmitEnabledIffSearches | src/components/SearchBar.jsx:88 | When nothing is loading, the search button is enabled exactly when its text trims to something. |
| Search.SearchBar.constructor | src/components/SearchBar.jsx:6-7 | The field starts empty and unfocused. |
| Search.SearchBar.Change | src/components/SearchBar.jsx:38 | Typing replaces the text with the field's value. |
| Search.SearchBar.Focus | src/components/SearchBar.jsx:39 | Focus sets the focus flag and keeps the text. |
| Search.SearchBar.Blur | src/components/SearchBar.jsx:40 | Blur clears the focus flag and keeps the text. |
| Search.SearchBar.Submit | src/components/SearchBar.jsx:9-15 | A search happens exactly when the text is not blank. It searches the trimmed text, which is non-empty and already trimmed, and clears the field. A blank submit changes nothing. |
| Builtins.Trim | src/components/SearchBar.jsx:11 | `trim` drops exactly the leading and trailing whitespace. It is empty exactly when its input is blank. |
| Builtins.TrimIdempotent | src/components/SearchBar.jsx:12 | Trimming twice is trimming once. |
| Builtins.Includes | src/components/HourlyForecast.jsx:24-30 | `includes` holds when the text occurs in the string at some index. The empty text is in every string, and an included text is never longer than the string. |
| Builtins.IncludesInfix | src/components/HourlyForecast.jsx:24-30 | A text placed between two others is included in the whole, and every text includes itself. |
| Builtins.Round | src/components/Forecast.jsx:10 | `Math.round` gives the integer r with r − ½ ≤ x < r + ½, so halves round up. |
| Builtins.ToLower | src/components/HourlyForecast.jsx:24 | Lower-casing keeps the length, maps each character and leaves no ASCII capital. |
| Dashboard.FetchBundle | src/App.jsx:139-143 | The three calls succeed together or the lookup fails. On success the payloads are those of the three calls. On failure the message is the non-empty message of a failing call. |
| Dashboard.Initial | src/App.jsx:22-36 | Nothing is shown, nothing loads, and there is no error. The theme and unit are read from storage. |
| Dashboard.SearchAllOrNothing | src/App.jsx:134-160 | After a city search all three datasets are shown with no error, or none is shown and there is a non-empty error. Loading is over either way. |
| Dashboard.CoordsLookupAllOrNothing | src/App.jsx:195-214 | A coordinate lookup, on its own or after a position fix, shows all three datasets when every call succeeds, and otherwise none of them with a non-empty error. Loading is over either way. On success it keeps the previous error on its own and shows none after a fix (src/App.jsx:171-176). |
| Dashboard.SearchStoresCityOnSuccess | src/App.jsx:145-156 | A successful city search remembers the city and forgets the coordinates. A failed one leaves storage unchanged. |
| Dashboard.LocationStoredEvenOnFailure | src/App.jsx:171-187 | A position fix is remembered, and the remembered city forgotten, even when looking that position up fails. The coordinate lookup reports its failure itself (src/App.jsx:206-210). |
| Dashboard.GeolocationFailures | src/App.jsx:163-166 | Without geolocation support only the error changes: nothing is fetched, stored or loaded. A refused position sets "Unable to retrieve your location" and ends loading. |
| Dashboard.RefreshRouting | src/App.jsx:224-230 | Refresh searches the shown place by name, or uses the position when nothing is shown. |
| Dashboard.RetryRouting | src/App.jsx:232-235 | Retry clears the error and always uses the position: a refused position leaves only the location message, and only a fix is stored. |
| Dashboard.RefreshResumesShownCity | src/App.jsx:224-230 | A successful refresh of a named place makes the next start search that name. |
| Dashboard.SearchResumedAtStart | src/App.jsx:150-151 | A successful search for a non-empty city makes the next start search it. |
| Dashboard.LocationResumedAtStart | src/App.jsx:178-182 | A position fix makes the next start look up that position, whatever its lookup gave. |
| Dashboard.TogglesRoundTrip | src/App.jsx:216-222 | Toggling the theme or the unit twice restores the state. A toggled choice is stored as "dark"/"light" or "celsius"/"fahrenheit" and read back at the next start. |
| Dashboard.StepsKeepConsistency | src/App.jsx:134-235 | Every handler keeps the three datasets all-or-nothing and keeps the stored theme and unit equal to those in use. |
| Dashboard.MountEstablishesConsistency | src/App.jsx:50-83 | The first render makes any initial state consistent, whatever storage held. |
| Dashboard.Palette | src/App.jsx:93-131 | The gradient for a condition is one of the seven gradients of the current theme. |
| Dashboard.Background | src/App.jsx:85-132 | The background is one of the current theme's gradients. With no weather it is the theme's default. |
| Dashboard.UnknownConditionLooksEmpty | src/App.jsx:85-132 | With no weather the background depends only on the theme. A condition the page does not know shows that same default. |
| Dashboard.NightOnlyMattersWhenClear | src/App.jsx:94-99 | Day and night differ only under a clear sky. Drizzle looks like rain. |
| Dashboard.GradientsDisjoint | src/App.jsx:93-131 | No gradient belongs to both themes. |
| Dashboard.ThemesNeverShareBackground | src/App.jsx:93-131 | The dark and the light theme never show the same background. |
| Dashboard.App.constructor | src/App.jsx:22-36 | The state hooks start as the initial state read from storage. |
| Dashboard.App.HandleSearch | src/App.jsx:134-160 | The handler's updates yield exactly the city-search transition. |
| Dashboard.App.HandleLocationSearchByCoords | src/App.jsx:195-214 | The handler's updates yield exactly the coordinate-lookup transition. It neither raises loading nor clears the error first. |
| Dashboard.App.HandleLocationSearch | src/App.jsx:162-193 | The handler's updates yield exactly the geolocation transition in all three device outcomes. |
| Dashboard.App.SavePreferences | src/App.jsx:50-65 | The effects store the current theme and unit. |
| Dashboard.App.Mount | src/App.jsx:68-83 | The first render saves the preferences, then runs the lookup that storage selects. |
| Dashboard.App.HandleRefresh | src/App.jsx:224-230 | The handler yields exactly the refresh transition. |
| Dashboard.App.HandleRetry | src/App.jsx:232-235 | The handler yields exactly the retry transition. |
| Dashboard.App.ToggleTheme | src/App.jsx:216-218 | The theme flips and the new theme is stored. |
| Dashboard.App.ToggleTemperatureUnit | src/App.jsx:220-222 | The unit flips and the new unit is stored. |

## Left out

- Rendering: the JSX, animations, icons and the presentational components
  (WeatherAnimations, Footer, ErrorMessage, ThemeToggle, LoadingSpinner,
  Navigation, RefreshButton). So are the `document.title` effect
  (src/App.jsx:39-47) and the `dark` class on the document
  (src/App.jsx:51-55).
- src/components/WeatherCard.jsx is not part of this model. Its `convertTemp`
  is the same rule as `Units.ConvertTemp`, and its date and time text depends
  on the clock and the locale. `formatHour` in src/components/HourlyForecast.jsx
  is left out for the same reason.
- The real `fetch`, JSON decoding and the API key from the environment. The
  provider is a function from URL to reply, and the key is a parameter.
- Concurrency: `Promise.all`, overlapping lookups and the time a lookup is in
  flight. Each handler runs as one step. `Dashboard.Started` is the state a
  lookup shows while it runs.
- Dashboard.FetchBundle: when several calls fail, `Promise.all` reports
  whichever rejects first. The contract promises only the message of some
  failing call. The body picks the first failing call in order.
- The browser APIs: geolocation becomes the `Geolocation` outcome,
  `matchMedia` the `prefersDark` flag, and local storage a map from strings to
  strings.
- Dashboard.Mounted and Dashboard.App.Mount require that stored coordinates
  parse. The page assumes it when it calls `JSON.parse` (src/App.jsx:77), and
  it throws otherwise. Parsing accepts exactly the text the page writes, not
  every JSON spelling of a coordinate pair.
- Dates, time zones and locale formatting. A calendar day is an integer, and
  `toLocaleDateString` becomes a weekday table indexed by the day modulo 7.
- Builtins.ToLower: maps ASCII letters only, not the full Unicode case mapping
  of `toLowerCase`.
- IEEE doubles: temperatures, rain volumes and cloud cover are exact reals or
  integers. `Math.round` is `floor(x + 1/2)`, which agrees except at the
  double rounding boundaries.
- Storage writes never fail. A `setItem` or `removeItem` that throws (a full
  or blocked storage) would send a successful city search into its `catch`
  (src/App.jsx:150-151) and a position fix into the `catch` of the
  geolocation callback (src/App.jsx:178-186). The coordinate lookup itself
  never throws, so that `catch` runs only on such a write failure. Neither
  path is modelled.
