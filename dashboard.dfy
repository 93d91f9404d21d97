/**
 * The dashboard: the three datasets on screen, the loading flag, the error
 * message, the theme and unit preferences, and the browser storage they are
 * kept in, with every lookup the page can start. Each lookup is one atomic
 * step; the network and the device position are given as parameters.
 */
module Dashboard {
  import opened Wrappers
  import opened Builtins
  import opened Provider
  import opened Api
  import opened Preferences

  // ---------------------------------------------------------------------------
  // Fetching the three datasets together.
  // ---------------------------------------------------------------------------

  /** The three payloads of one successful lookup. */
  datatype Bundle = Bundle(weather: Current, forecast: ForecastData, hourly: ForecastData)

  /** What the provider answers for each URL, per payload type. */
  datatype Network = Network(weather: string -> Reply<Current>, forecast: string -> Reply<ForecastData>)

  /** `Promise.all` over the weather, forecast and hourly calls for `loc`:
      the payloads when all three succeed, otherwise the message of a failing
      call. */
  function FetchBundle(key: string, loc: Location, net: Network): (r: Result<Bundle>)
    ensures var w := Get(key, Weather, loc, net.weather);
      var f := Get(key, Forecast, loc, net.forecast);
      var h := Get(key, Hourly, loc, net.forecast);
      && (r.Ok? <==> w.Ok? && f.Ok? && h.Ok?)
      && (r.Ok? ==> r.value == Bundle(w.value, f.value, h.value))
      && (r.Err? ==>
            || (w.Err? && r.message == w.message)
            || (f.Err? && r.message == f.message)
            || (h.Err? && r.message == h.message))
      && (r.Err? ==> r.message != "")
  {
    var w := Get(key, Weather, loc, net.weather);
    var f := Get(key, Forecast, loc, net.forecast);
    var h := Get(key, Hourly, loc, net.forecast);
    if w.Err? then Err(w.message)
    else if f.Err? then Err(f.message)
    else if h.Err? then Err(h.message)
    else Ok(Bundle(w.value, f.value, h.value))
  }

  // ---------------------------------------------------------------------------
  // The page state and its transitions.
  // ---------------------------------------------------------------------------

  /** What the device reports when asked for its position. */
  datatype Geolocation = Unsupported | Denied | Fix(coords: Coords)

  const UnsupportedMessage: string := "Geolocation is not supported by this browser"
  const LocationMessage: string := "Unable to retrieve your location"

  datatype AppState = AppState(
    weather: Option<Current>,
    forecast: Option<ForecastData>,
    hourly: Option<ForecastData>,
    loading: bool,
    error: string,
    isDark: bool,
    isCelsius: bool,
    storage: Storage)

  /** The state before any effect has run: nothing fetched, the preferences
      read from storage. */
  function Initial(st: Storage, prefersDark: bool): (s: AppState)
    ensures s.weather.None? && s.forecast.None? && s.hourly.None?
    ensures !s.loading && s.error == "" && s.storage == st
    ensures s.isDark == InitialDark(st, prefersDark) && s.isCelsius == InitialCelsius(st)
  {
    AppState(None, None, None, false, "", InitialDark(st, prefersDark), InitialCelsius(st), st)
  }

  /** A lookup begins: the loading flag is raised and the error cleared. */
  function Started(s: AppState): AppState {
    s.(loading := true, error := "")
  }

  /** A lookup ends: its payloads replace the shown data, or its message
      replaces the error and all data is dropped; loading ends either way. */
  function Finished(s: AppState, r: Result<Bundle>): (s': AppState)
    ensures !s'.loading && s'.isDark == s.isDark && s'.isCelsius == s.isCelsius && s'.storage == s.storage
    ensures s'.weather.Some? <==> r.Ok?
    ensures (s'.forecast.Some? <==> r.Ok?) && (s'.hourly.Some? <==> r.Ok?)
  {
    match r
    case Ok(b) => s.(weather := Some(b.weather), forecast := Some(b.forecast), hourly := Some(b.hourly),
                     loading := false)
    case Err(m) => s.(weather := None, forecast := None, hourly := None, error := m, loading := false)
  }

  /** `handleSearch(city)`: a city lookup, remembered in storage when it
      succeeds. */
  function Searched(s: AppState, key: string, city: string, net: Network): AppState {
    var r := FetchBundle(key, ByName(city), net);
    var s' := Finished(Started(s), r);
    if r.Ok? then s'.(storage := PersistCity(s'.storage, city)) else s'
  }

  /** `handleLocationSearchByCoords`: a coordinate lookup. It neither raises
      the loading flag nor clears the error first, and stores nothing. */
  function CoordsSearched(s: AppState, key: string, c: Coords, net: Network): AppState {
    Finished(s, FetchBundle(key, ByCoords(c), net))
  }

  /** `handleLocationSearch`: asks the device for its position and looks it
      up. The coordinate lookup reports its own failures, so the coordinates
      are stored (and the stored city dropped) whether or not it succeeded. */
  function LocationSearched(s: AppState, key: string, geo: Geolocation, net: Network): AppState {
    match geo
    case Unsupported => s.(error := UnsupportedMessage)
    case Denied => Started(s).(error := LocationMessage, loading := false)
    case Fix(c) =>
      var s' := CoordsSearched(Started(s), key, c, net);
      s'.(storage := PersistCoords(s'.storage, c))
  }

  /** The theme and unit effects: the current choices are written to storage. */
  function PreferencesSaved(s: AppState): AppState {
    s.(storage := s.storage[ThemeKey := ThemeValue(s.isDark)][UnitKey := UnitValue(s.isCelsius)])
  }

  /** The effects that run when the page first renders: the preferences are
      saved, then the stored city, the stored coordinates or the device
      position is looked up, in that order of preference. */
  function Mounted(s: AppState, key: string, geo: Geolocation, net: Network): AppState
    requires ReadableCoords(s.storage)
  {
    var s' := PreferencesSaved(s);
    assert Truthy(s'.storage, CityKey) == Truthy(s.storage, CityKey);
    assert Truthy(s'.storage, CoordsKey) == Truthy(s.storage, CoordsKey);
    match InitialQuery(s'.storage)
    case Lookup(ByName(city)) => Searched(s', key, city, net)
    case Lookup(ByCoords(c)) => CoordsSearched(s', key, c, net)
    case Detect => LocationSearched(s', key, geo, net)
  }

  /** `handleRefresh`: the shown city again by the name the provider gave it,
      or the device position when nothing is shown. */
  function Refreshed(s: AppState, key: string, geo: Geolocation, net: Network): AppState {
    if s.weather.Some? then Searched(s, key, s.weather.value.name, net)
    else LocationSearched(s, key, geo, net)
  }

  /** `handleRetry`: clear the error and look up the device position. */
  function Retried(s: AppState, key: string, geo: Geolocation, net: Network): AppState {
    LocationSearched(s.(error := ""), key, geo, net)
  }

  /** `toggleTheme` followed by the theme effect. */
  function ThemeToggled(s: AppState): AppState {
    s.(isDark := !s.isDark, storage := s.storage[ThemeKey := ThemeValue(!s.isDark)])
  }

  /** `toggleTemperatureUnit` followed by the unit effect. */
  function UnitToggled(s: AppState): AppState {
    s.(isCelsius := !s.isCelsius, storage := s.storage[UnitKey := UnitValue(!s.isCelsius)])
  }

  // ---------------------------------------------------------------------------
  // Properties of the transitions.
  // ---------------------------------------------------------------------------

  /** The three datasets are shown together or not at all, and the stored
      preferences are the ones in use. */
  ghost predicate Consistent(s: AppState) {
    && (s.weather.Some? <==> s.forecast.Some?)
    && (s.weather.Some? <==> s.hourly.Some?)
    && ThemeKey in s.storage && s.storage[ThemeKey] == ThemeValue(s.isDark)
    && UnitKey in s.storage && s.storage[UnitKey] == UnitValue(s.isCelsius)
  }

  /** A city search shows all three datasets and no error exactly when every
      call succeeds, and otherwise shows nothing but a non-empty message from
      a failing call. Loading is over either way, and the preferences are
      untouched. */
  lemma SearchAllOrNothing(s: AppState, key: string, city: string, net: Network)
    ensures var s' := Searched(s, key, city, net);
      var r := FetchBundle(key, ByName(city), net);
      && !s'.loading && s'.isDark == s.isDark && s'.isCelsius == s.isCelsius
      && (r.Ok? ==> s'.error == "" && s'.weather == Some(r.value.weather)
                    && s'.forecast == Some(r.value.forecast) && s'.hourly == Some(r.value.hourly))
      && (r.Err? ==> s'.error == r.message && s'.error != ""
                     && s'.weather.None? && s'.forecast.None? && s'.hourly.None?)
  {
  }

  /** A coordinate lookup, on its own or after a position fix, shows all three
      datasets exactly when every call succeeds, and otherwise shows nothing
      but a non-empty message from a failing call. Loading is over either way,
      and the preferences are untouched. On its own it keeps the previous
      error when it succeeds; after a fix the error was cleared first. */
  lemma CoordsLookupAllOrNothing(s: AppState, key: string, c: Coords, net: Network)
    ensures var r := FetchBundle(key, ByCoords(c), net);
      forall s' | s' == CoordsSearched(s, key, c, net) || s' == LocationSearched(s, key, Fix(c), net) ::
      && !s'.loading && s'.isDark == s.isDark && s'.isCelsius == s.isCelsius
      && (r.Ok? ==> s'.weather == Some(r.value.weather)
                    && s'.forecast == Some(r.value.forecast) && s'.hourly == Some(r.value.hourly))
      && (r.Err? ==> s'.error == r.message && s'.error != ""
                     && s'.weather.None? && s'.forecast.None? && s'.hourly.None?)
    ensures FetchBundle(key, ByCoords(c), net).Ok? ==>
      CoordsSearched(s, key, c, net).error == s.error && LocationSearched(s, key, Fix(c), net).error == ""
  {
  }

  /** Storage changes only after a successful city search: it then names the
      city, and no coordinates. */
  lemma SearchStoresCityOnSuccess(s: AppState, key: string, city: string, net: Network)
    ensures var s' := Searched(s, key, city, net);
      if FetchBundle(key, ByName(city), net).Ok? then s'.storage == PersistCity(s.storage, city)
      else s'.storage == s.storage
  {
  }

  /** A position fix is stored, and the stored city dropped, even when the
      lookup of that position fails. */
  lemma LocationStoredEvenOnFailure(s: AppState, key: string, c: Coords, net: Network)
    ensures var s' := LocationSearched(s, key, Fix(c), net);
      && s'.storage == PersistCoords(s.storage, c)
      && CityKey !in s'.storage
      && (FetchBundle(key, ByCoords(c), net).Err? ==> s'.weather.None? && s'.error != "")
  {
  }

  /** Without a position nothing is fetched or stored: an unsupported device
      changes only the error, a refusal also ends loading. */
  lemma GeolocationFailures(s: AppState, key: string, net: Network)
    ensures LocationSearched(s, key, Unsupported, net) == s.(error := UnsupportedMessage)
    ensures var s' := LocationSearched(s, key, Denied, net);
      s' == s.(error := LocationMessage, loading := false)
  {
  }

  /** Refresh searches the shown place by name when there is one and asks for
      the position otherwise. */
  lemma RefreshRouting(s: AppState, key: string, geo: Geolocation, net: Network)
    ensures s.weather.Some? ==> Refreshed(s, key, geo, net) == Searched(s, key, s.weather.value.name, net)
    ensures s.weather.None? ==> Refreshed(s, key, geo, net) == LocationSearched(s, key, geo, net)
  {
  }

  /** Retry always asks for the position: a refused position leaves only the
      location message, and only a fix is stored. */
  lemma RetryRouting(s: AppState, key: string, geo: Geolocation, net: Network)
    ensures Retried(s, key, Denied, net) == s.(error := LocationMessage, loading := false)
    ensures Retried(s, key, geo, net).storage ==
      if geo.Fix? then PersistCoords(s.storage, geo.coords) else s.storage
  {
  }

  /** A refresh repeats the shown place by name, which the following start
      resumes when that name is not empty. */
  lemma RefreshResumesShownCity(s: AppState, key: string, geo: Geolocation, net: Network)
    requires s.weather.Some? && s.weather.value.name != ""
    requires FetchBundle(key, ByName(s.weather.value.name), net).Ok?
    ensures var s' := Refreshed(s, key, geo, net);
      ReadableCoords(s'.storage) && InitialQuery(s'.storage) == Lookup(ByName(s.weather.value.name))
  {
    ResumeCity(s.storage, s.weather.value.name);
  }

  /** A city found by search is looked up again on the next start. */
  lemma SearchResumedAtStart(s: AppState, key: string, city: string, net: Network)
    requires city != "" && FetchBundle(key, ByName(city), net).Ok?
    ensures var st := Searched(s, key, city, net).storage;
      ReadableCoords(st) && InitialQuery(st) == Lookup(ByName(city))
  {
    ResumeCity(s.storage, city);
  }

  /** A position fix is looked up again on the next start, whether or not its
      lookup succeeded. */
  lemma LocationResumedAtStart(s: AppState, key: string, c: Coords, net: Network)
    requires WellFormed(c)
    ensures var st := LocationSearched(s, key, Fix(c), net).storage;
      ReadableCoords(st) && InitialQuery(st) == Lookup(ByCoords(c))
  {
    ResumeCoords(s.storage, c);
  }

  /** Toggling twice restores a consistent state, and a toggled choice is the
      one read back at the next start. */
  lemma TogglesRoundTrip(s: AppState, prefersDark: bool)
    requires Consistent(s)
    ensures ThemeToggled(ThemeToggled(s)) == s
    ensures UnitToggled(UnitToggled(s)) == s
    ensures InitialDark(ThemeToggled(s).storage, prefersDark) == !s.isDark
    ensures InitialCelsius(UnitToggled(s).storage) == !s.isCelsius
  {
    PreferencesReadBack(s.storage, !s.isDark, !s.isCelsius, prefersDark);
    assert s.storage[ThemeKey := ThemeValue(!s.isDark)][ThemeKey := ThemeValue(s.isDark)] == s.storage;
    assert s.storage[UnitKey := UnitValue(!s.isCelsius)][UnitKey := UnitValue(s.isCelsius)] == s.storage;
  }

  lemma SearchKeepsConsistency(s: AppState, key: string, city: string, net: Network)
    requires Consistent(s)
    ensures Consistent(Searched(s, key, city, net))
  {
    var r := FetchBundle(key, ByName(city), net);
    var s' := Finished(Started(s), r);
    if r.Ok? {
      assert PersistCity(s'.storage, city)[ThemeKey] == s'.storage[ThemeKey];
      assert PersistCity(s'.storage, city)[UnitKey] == s'.storage[UnitKey];
    }
  }

  lemma LocationSearchKeepsConsistency(s: AppState, key: string, geo: Geolocation, net: Network)
    requires Consistent(s)
    ensures Consistent(LocationSearched(s, key, geo, net))
  {
    if geo.Fix? {
      var s' := CoordsSearched(Started(s), key, geo.coords, net);
      assert PersistCoords(s'.storage, geo.coords)[ThemeKey] == s'.storage[ThemeKey];
      assert PersistCoords(s'.storage, geo.coords)[UnitKey] == s'.storage[UnitKey];
    }
  }

  /** Every step after the first render keeps the state consistent. */
  lemma StepsKeepConsistency(s: AppState, key: string, city: string, geo: Geolocation, net: Network)
    requires Consistent(s)
    ensures Consistent(Searched(s, key, city, net))
    ensures Consistent(LocationSearched(s, key, geo, net))
    ensures Consistent(Refreshed(s, key, geo, net))
    ensures Consistent(Retried(s, key, geo, net))
    ensures Consistent(ThemeToggled(s)) && Consistent(UnitToggled(s))
  {
    TogglesKeepConsistency(s);
    SearchKeepsConsistency(s, key, city, net);
    LocationSearchKeepsConsistency(s, key, geo, net);
    if s.weather.Some? {
      SearchKeepsConsistency(s, key, s.weather.value.name, net);
    }
    RefreshRouting(s, key, geo, net);
    LocationSearchKeepsConsistency(s.(error := ""), key, geo, net);
    assert Retried(s, key, geo, net) == LocationSearched(s.(error := ""), key, geo, net);
  }

  lemma TogglesKeepConsistency(s: AppState)
    requires Consistent(s)
    ensures Consistent(ThemeToggled(s)) && Consistent(UnitToggled(s))
  {
  }

  /** The first render makes any initial state consistent, whatever storage
      held before. */
  lemma MountEstablishesConsistency(st: Storage, prefersDark: bool, key: string, geo: Geolocation, net: Network)
    requires ReadableCoords(st)
    ensures Consistent(Mounted(Initial(st, prefersDark), key, geo, net))
  {
    var s := Initial(st, prefersDark);
    SavedPreferences(s);
    var s' := PreferencesSaved(s);
    match InitialQuery(s'.storage)
    case Lookup(ByName(city)) => SearchKeepsConsistency(s', key, city, net);
    case Lookup(ByCoords(c)) =>
    case Detect => LocationSearchKeepsConsistency(s', key, geo, net);
  }

  /** Saving the preferences makes them consistent and leaves the stored city
      and coordinates alone. */
  lemma SavedPreferences(s: AppState)
    requires s.weather.None? && s.forecast.None? && s.hourly.None?
    ensures var st := PreferencesSaved(s).storage;
      && Consistent(PreferencesSaved(s))
      && Truthy(st, CityKey) == Truthy(s.storage, CityKey)
      && Truthy(st, CoordsKey) == Truthy(s.storage, CoordsKey)
  {
  }

  // ---------------------------------------------------------------------------
  // The page background.
  // ---------------------------------------------------------------------------

  /** The condition names the background distinguishes. */
  const KnownConditions: set<string> := {"clear", "clouds", "rain", "drizzle", "thunderstorm", "snow"}

  /** The gradients of the dark theme. */
  const DarkGradients: set<string> := {
    "from-indigo-900 via-purple-900 to-pink-900", "from-orange-900 via-amber-900 to-yellow-900",
    "from-slate-900 via-gray-800 to-slate-900", "from-blue-900 via-indigo-900 to-purple-900",
    "from-gray-900 via-purple-900 to-black", "from-blue-900 via-cyan-900 to-slate-900",
    "from-slate-900 via-purple-900 to-slate-900"}

  /** The gradients of the light theme. */
  const LightGradients: set<string> := {
    "from-indigo-500 via-purple-500 to-pink-500", "from-amber-300 via-orange-400 to-red-400",
    "from-slate-300 via-gray-400 to-slate-500", "from-blue-500 via-blue-600 to-indigo-700",
    "from-slate-600 via-gray-700 to-slate-800", "from-sky-200 via-cyan-300 to-blue-300",
    "from-sky-300 via-blue-400 to-indigo-500"}

  /** The gradient for a lower-case condition name: one of the theme's own
      gradients. */
  function Palette(condition: string, isNight: bool, isDark: bool): (b: string)
    ensures b in (if isDark then DarkGradients else LightGradients)
  {
    if isDark then
      if condition == "clear" then
        (if isNight then "from-indigo-900 via-purple-900 to-pink-900"
         else "from-orange-900 via-amber-900 to-yellow-900")
      else if condition == "clouds" then "from-slate-900 via-gray-800 to-slate-900"
      else if condition == "rain" || condition == "drizzle" then "from-blue-900 via-indigo-900 to-purple-900"
      else if condition == "thunderstorm" then "from-gray-900 via-purple-900 to-black"
      else if condition == "snow" then "from-blue-900 via-cyan-900 to-slate-900"
      else "from-slate-900 via-purple-900 to-slate-900"
    else
      if condition == "clear" then
        (if isNight then "from-indigo-500 via-purple-500 to-pink-500"
         else "from-amber-300 via-orange-400 to-red-400")
      else if condition == "clouds" then "from-slate-300 via-gray-400 to-slate-500"
      else if condition == "rain" || condition == "drizzle" then "from-blue-500 via-blue-600 to-indigo-700"
      else if condition == "thunderstorm" then "from-slate-600 via-gray-700 to-slate-800"
      else if condition == "snow" then "from-sky-200 via-cyan-300 to-blue-300"
      else "from-sky-300 via-blue-400 to-indigo-500"
  }

  /** `getWeatherBackground`: the default gradient of the theme when nothing
      is shown; otherwise the gradient for the shown condition, where a clear
      sky also depends on whether the icon is a night icon. */
  function Background(weather: Option<Current>, isDark: bool): (b: string)
    ensures b in (if isDark then DarkGradients else LightGradients)
    ensures weather.None? ==> b == Palette("", false, isDark)
  {
    match weather
    case None => if isDark then "from-slate-900 via-purple-900 to-slate-900" else "from-sky-300 via-blue-400 to-indigo-500"
    case Some(w) => Palette(ToLower(w.condition.main), Includes(w.condition.icon, "n"), isDark)
  }

  /** A condition the page does not know looks the same as no weather. */
  lemma UnknownConditionLooksEmpty(w: Current, isDark: bool)
    requires ToLower(w.condition.main) !in KnownConditions
    ensures Background(Some(w), isDark) == Background(None, isDark)
  {
  }

  /** Day and night differ only under a clear sky; drizzle looks like rain. */
  lemma NightOnlyMattersWhenClear(condition: string, isDark: bool)
    ensures condition != "clear" ==> Palette(condition, true, isDark) == Palette(condition, false, isDark)
    ensures Palette("clear", true, isDark) != Palette("clear", false, isDark)
    ensures Palette("drizzle", true, isDark) == Palette("rain", true, isDark)
  {
  }

  /** The dark and the light theme never share a background. */
  lemma ThemesNeverShareBackground(weather: Option<Current>)
    ensures Background(weather, true) != Background(weather, false)
  {
    GradientsDisjoint();
  }

  /** No gradient belongs to both themes. */
  lemma GradientsDisjoint()
    ensures DarkGradients !! LightGradients
  {
  }

  // ---------------------------------------------------------------------------
  // The page component.
  // ---------------------------------------------------------------------------

  /** The page: its state hooks as fields, its handlers as methods. Each
      handler's outcome is the transition of the same name above. */
  class App {
    const apiKey: string
    var weather: Option<Current>
    var forecast: Option<ForecastData>
    var hourly: Option<ForecastData>
    var loading: bool
    var error: string
    var isDark: bool
    var isCelsius: bool
    var storage: Storage

    function State(): AppState
      reads this
    {
      AppState(weather, forecast, hourly, loading, error, isDark, isCelsius, storage)
    }

    /** The state hooks' initial values, read from `st`. */
    constructor(apiKey: string, st: Storage, prefersDark: bool)
      ensures this.apiKey == apiKey && State() == Initial(st, prefersDark)
    {
      this.apiKey := apiKey;
      weather := None;
      forecast := None;
      hourly := None;
      loading := false;
      error := "";
      storage := st;
      isDark := InitialDark(st, prefersDark);
      isCelsius := InitialCelsius(st);
    }

    /** Shows the outcome of a lookup and ends loading. */
    method Finish(r: Result<Bundle>)
      modifies this
      ensures State() == Finished(old(State()), r)
    {
      match r {
        case Ok(b) =>
          weather := Some(b.weather);
          forecast := Some(b.forecast);
          hourly := Some(b.hourly);
        case Err(m) =>
          error := m;
          weather := None;
          forecast := None;
          hourly := None;
      }
      loading := false;
    }

    method HandleSearch(city: string, net: Network)
      modifies this
      ensures State() == Searched(old(State()), apiKey, city, net)
    {
      loading := true;
      error := "";
      var r := FetchBundle(apiKey, ByName(city), net);
      Finish(r);
      if r.Ok? {
        storage := PersistCity(storage, city);
      }
    }

    method HandleLocationSearchByCoords(c: Coords, net: Network)
      modifies this
      ensures State() == CoordsSearched(old(State()), apiKey, c, net)
    {
      var r := FetchBundle(apiKey, ByCoords(c), net);
      Finish(r);
    }

    method HandleLocationSearch(geo: Geolocation, net: Network)
      modifies this
      ensures State() == LocationSearched(old(State()), apiKey, geo, net)
    {
      if geo.Unsupported? {
        error := UnsupportedMessage;
        return;
      }
      loading := true;
      error := "";
      match geo {
        case Denied =>
          error := LocationMessage;
          loading := false;
        case Fix(c) =>
          HandleLocationSearchByCoords(c, net);
          storage := PersistCoords(storage, c);
      }
    }

    /** The theme and unit effects. */
    method SavePreferences()
      modifies this
      ensures State() == PreferencesSaved(old(State()))
    {
      storage := storage[ThemeKey := ThemeValue(isDark)];
      storage := storage[UnitKey := UnitValue(isCelsius)];
    }

    /** The effects of the first render. */
    method Mount(geo: Geolocation, net: Network)
      requires ReadableCoords(storage)
      modifies this
      ensures State() == Mounted(old(State()), apiKey, geo, net)
    {
      SavePreferences();
      assert Truthy(storage, CityKey) == Truthy(old(storage), CityKey);
      assert Truthy(storage, CoordsKey) == Truthy(old(storage), CoordsKey);
      match InitialQuery(storage) {
        case Lookup(ByName(city)) => HandleSearch(city, net);
        case Lookup(ByCoords(c)) => HandleLocationSearchByCoords(c, net);
        case Detect => HandleLocationSearch(geo, net);
      }
    }

    method HandleRefresh(geo: Geolocation, net: Network)
      modifies this
      ensures State() == Refreshed(old(State()), apiKey, geo, net)
    {
      if weather.Some? {
        HandleSearch(weather.value.name, net);
      } else {
        HandleLocationSearch(geo, net);
      }
    }

    method HandleRetry(geo: Geolocation, net: Network)
      modifies this
      ensures State() == Retried(old(State()), apiKey, geo, net)
    {
      error := "";
      HandleLocationSearch(geo, net);
    }

    /** `toggleTheme` and the theme effect. */
    method ToggleTheme()
      modifies this
      ensures State() == ThemeToggled(old(State()))
    {
      isDark := !isDark;
      storage := storage[ThemeKey := ThemeValue(isDark)];
    }

    /** `toggleTemperatureUnit` and the unit effect. */
    method ToggleTemperatureUnit()
      modifies this
      ensures State() == UnitToggled(old(State()))
    {
      isCelsius := !isCelsius;
      storage := storage[UnitKey := UnitValue(isCelsius)];
    }
  }
}
