/**
 * The dashboard's use of `localStorage`, modelled as a string map: the last
 * searched city or coordinates, the theme and the temperature unit, and how
 * they are read back when the dashboard starts.
 */
module Preferences {
  import opened Wrappers
  import opened Builtins
  import opened Provider
  import opened Api

  type Storage = map<string, string>

  const CityKey: string := "lastSearchedCity"
  const CoordsKey: string := "lastSearchedCoords"
  const ThemeKey: string := "theme"
  const UnitKey: string := "temperatureUnit"

  /** `localStorage.getItem(key)` used as a condition: the stored value when it
      is present and not empty, `None` when it is missing or falsy. */
  function Truthy(st: Storage, key: string): (r: Option<string>)
    ensures r.Some? <==> key in st && st[key] != ""
    ensures r.Some? ==> r.value == st[key]
  {
    if key in st && st[key] != "" then Some(st[key]) else None
  }

  const LatOpen: string := "{\"lat\":"
  const LonSep: string := ",\"lon\":"

  /** `JSON.stringify({ lat, lon })`: an object text that opens with the
      latitude field and holds both numbers' text. */
  function CoordsJson(c: Coords): (t: string)
    ensures |t| == |LatOpen| + |c.lat| + |LonSep| + |c.lon| + 1
    ensures t[0] == '{' && t[|t| - 1] == '}'
  {
    LatOpen + c.lat + LonSep + c.lon + "}"
  }

  /** `JSON.parse` of stored coordinates, for text of the shape `CoordsJson`
      writes; any other text is rejected. */
  function ParseCoords(t: string): (r: Option<Coords>)
    ensures r.Some? ==> CoordsJson(r.value) == t
  {
    if |t| >= |LatOpen| + 1 && t[..|LatOpen|] == LatOpen && t[|t| - 1] == '}' then
      var body := t[|LatOpen|..|t| - 1];
      match IndexOf(body, ',')
      case None => None
      case Some(k) =>
        if |body| - k >= |LonSep| && body[k..k + |LonSep|] == LonSep then
          var c := Coords(body[..k], body[k + |LonSep|..]);
          Unframe(t, |LatOpen|, 1);
          Unsplit(body, k, |LonSep|);
          assert t[|t| - 1..] == "}";
          Reassemble(t, t[..|LatOpen|], body, t[|t| - 1..], c.lat, body[k..k + |LonSep|], c.lon);
          Some(c)
        else None
    else None
  }

  /** A string is its head, its middle and its tail. */
  lemma Unframe(t: string, a: nat, z: nat)
    requires a + z <= |t|
    ensures t == t[..a] + t[a..|t| - z] + t[|t| - z..]
  {
  }

  /** A string is what comes before position `k`, `n` characters from `k`,
      and the rest. */
  lemma Unsplit(s: string, k: nat, n: nat)
    requires k + n <= |s|
    ensures s == s[..k] + s[k..k + n] + s[k + n..]
  {
  }

  lemma Reassemble(t: string, p: string, body: string, z: string, x: string, q: string, y: string)
    requires t == p + body + z && body == x + q + y
    ensures t == p + x + q + y + z
  {
  }

  /** The parts of `p + x + q + y + z` are found where they were put. */
  lemma Parts(p: string, x: string, q: string, y: string, z: string)
    ensures var t := p + x + q + y + z;
      && t[..|p|] == p
      && t[|p|..|t| - |z|] == x + q + y
      && t[|t| - |z|..] == z
    ensures var m := x + q + y;
      m[..|x|] == x && m[|x|..|x| + |q|] == q && m[|x| + |q|..] == y
  {
    var t := p + x + q + y + z;
    assert t == p + (x + q + y) + z;
  }

  /** Coordinates written by `CoordsJson` are read back unchanged. */
  lemma ParseCoordsRoundTrip(c: Coords)
    requires WellFormed(c)
    ensures ParseCoords(CoordsJson(c)) == Some(c)
  {
    var t := CoordsJson(c);
    Parts(LatOpen, c.lat, LonSep, c.lon, "}");
    var body := c.lat + LonSep + c.lon;
    assert t[|LatOpen|..|t| - 1] == body;
    assert t[|t| - 1] == '}' by { assert t[|t| - 1..] == "}"; }
    assert ',' !in c.lat;
    assert LonSep == [','] + "\"lon\":";
    assert body == c.lat + [','] + ("\"lon\":" + c.lon);
    IndexOfAfter(c.lat, ',', "\"lon\":" + c.lon);
  }

  /** Stores a searched city and drops stored coordinates. */
  function PersistCity(st: Storage, city: string): (r: Storage)
    ensures CityKey in r && r[CityKey] == city && CoordsKey !in r
    ensures forall k :: k != CityKey && k != CoordsKey ==> (k in r <==> k in st)
    ensures forall k :: k in r && k != CityKey ==> r[k] == st[k]
  {
    st[CityKey := city] - {CoordsKey}
  }

  /** Stores located coordinates and drops a stored city. */
  function PersistCoords(st: Storage, c: Coords): (r: Storage)
    ensures CoordsKey in r && r[CoordsKey] == CoordsJson(c) && CityKey !in r
    ensures forall k :: k != CityKey && k != CoordsKey ==> (k in r <==> k in st)
    ensures forall k :: k in r && k != CoordsKey ==> r[k] == st[k]
  {
    st[CoordsKey := CoordsJson(c)] - {CityKey}
  }

  /** At most one of the two last-lookup entries is stored. */
  predicate Exclusive(st: Storage) {
    !(CityKey in st && CoordsKey in st)
  }

  /** Whatever was stored before, either write leaves exactly one of the two
      last-lookup entries behind. */
  lemma PersistIsExclusive(st: Storage, city: string, c: Coords)
    ensures Exclusive(PersistCity(st, city)) && Exclusive(PersistCoords(st, c))
    ensures CityKey in PersistCity(st, city) && CoordsKey in PersistCoords(st, c)
  {
  }

  /** What the startup effect looks up. */
  datatype Startup = Lookup(loc: Location) | Detect

  /** Stored coordinates that the startup effect would parse are readable. */
  predicate ReadableCoords(st: Storage) {
    Truthy(st, CityKey).None? && Truthy(st, CoordsKey).Some? ==> ParseCoords(st[CoordsKey]).Some?
  }

  /** The startup effect's choice: a stored city wins over stored coordinates,
      which win over detecting the device position. */
  function InitialQuery(st: Storage): (q: Startup)
    requires ReadableCoords(st)
    ensures q.Lookup? && q.loc.ByName? <==> Truthy(st, CityKey).Some?
    ensures q.Lookup? && q.loc.ByName? ==> q.loc.city == st[CityKey]
    ensures q.Lookup? && q.loc.ByCoords? <==> Truthy(st, CityKey).None? && Truthy(st, CoordsKey).Some?
    ensures q.Lookup? && q.loc.ByCoords? ==> CoordsJson(q.loc.coords) == st[CoordsKey]
    ensures q.Detect? <==> Truthy(st, CityKey).None? && Truthy(st, CoordsKey).None?
  {
    match Truthy(st, CityKey)
    case Some(city) => Lookup(ByName(city))
    case None =>
      match Truthy(st, CoordsKey)
      case Some(text) => Lookup(ByCoords(ParseCoords(text).value))
      case None => Detect
  }

  /** A successful city search is resumed at the next start; a city with an
      empty name is falsy and is not. */
  lemma ResumeCity(st: Storage, city: string)
    ensures ReadableCoords(PersistCity(st, city))
    ensures city != "" ==> InitialQuery(PersistCity(st, city)) == Lookup(ByName(city))
    ensures city == "" ==> InitialQuery(PersistCity(st, city)) == Detect
  {
  }

  /** Located coordinates are resumed at the next start. */
  lemma {:induction false} ResumeCoords(st: Storage, c: Coords)
    requires WellFormed(c)
    ensures ReadableCoords(PersistCoords(st, c))
    ensures InitialQuery(PersistCoords(st, c)) == Lookup(ByCoords(c))
  {
    ParseCoordsRoundTrip(c);
    var r := PersistCoords(st, c);
    assert r[CoordsKey] != "" by { assert |CoordsJson(c)| > 0; }
  }

  function ThemeValue(isDark: bool): string {
    if isDark then "dark" else "light"
  }

  function UnitValue(isCelsius: bool): string {
    if isCelsius then "celsius" else "fahrenheit"
  }

  /** The initial theme: a stored non-empty value decides (dark exactly when it
      is "dark"); otherwise the system's colour-scheme preference. */
  function InitialDark(st: Storage, prefersDark: bool): (d: bool)
    ensures Truthy(st, ThemeKey).None? ==> d == prefersDark
    ensures Truthy(st, ThemeKey).Some? ==> (d <==> st[ThemeKey] == "dark")
  {
    match Truthy(st, ThemeKey)
    case Some(saved) => saved == "dark"
    case None => prefersDark
  }

  /** The initial unit: Celsius unless a non-empty stored value other than
      "celsius" exists. */
  function InitialCelsius(st: Storage): (c: bool)
    ensures !c <==> UnitKey in st && st[UnitKey] != "" && st[UnitKey] != "celsius"
  {
    match Truthy(st, UnitKey)
    case Some(saved) => saved == "celsius"
    case None => true
  }

  /** What the persistence effects store is read back as the same choice on
      the next start. */
  lemma PreferencesReadBack(st: Storage, isDark: bool, isCelsius: bool, prefersDark: bool)
    ensures InitialDark(st[ThemeKey := ThemeValue(isDark)], prefersDark) == isDark
    ensures InitialCelsius(st[UnitKey := UnitValue(isCelsius)]) == isCelsius
  {
  }
}
