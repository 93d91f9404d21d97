/**
 * The six provider calls of the API utility: the request URL each one builds
 * and how each one settles the reply of `fetch`, which is given as a function
 * from URL to reply.
 */
module Api {
  import opened Wrappers
  import opened Builtins
  import opened Provider

  const BaseUrl: string := "https://api.openweathermap.org/data/2.5"

  /** The three datasets: current weather, the full forecast and the
      eight-entry hourly forecast. */
  datatype Endpoint = Weather | Forecast | Hourly

  /** What a call is keyed by: a city name or a coordinate pair. */
  datatype Location = ByName(city: string) | ByCoords(coords: Coords)

  /** Locations whose query can be read back unambiguously. */
  predicate Addressable(loc: Location) {
    loc.ByCoords? ==> WellFormed(loc.coords)
  }

  /** The parts every URL is made of: the endpoint's path, the location
      parameters, and the key, units and count. */
  function Prefix(e: Endpoint): string {
    BaseUrl + (if e == Weather then "/weather?" else "/forecast?")
  }

  function Params(loc: Location): string {
    match loc
    case ByName(city) => "q=" + city
    case ByCoords(c) => "lat=" + c.lat + "&lon=" + c.lon
  }

  function Suffix(key: string, e: Endpoint): string {
    "&appid=" + key + (if e == Hourly then "&units=metric&cnt=8" else "&units=metric")
  }

  lemma RegroupName(b: string, p: string, q: string, x: string, a: string, k: string, u: string)
    ensures b + (p + q) + x + a + k + u == (b + p) + (q + x) + (a + k + u)
  {
  }

  lemma RegroupCoords(b: string, p: string, q: string, x: string, m: string, y: string,
                      a: string, k: string, u: string)
    ensures b + (p + q) + x + m + y + a + k + u == (b + p) + (q + x + m + y) + (a + k + u)
  {
  }

  /** The URL a call fetches: the six templates of the API utility. Every one
      is the endpoint's path, the location parameters and the key, units and
      count, in that order; the city is inserted as is, without URL encoding. */
  function Url(key: string, e: Endpoint, loc: Location): (url: string)
    ensures url == Prefix(e) + Params(loc) + Suffix(key, e)
  {
    var path := if e == Weather then "/weather?" else "/forecast?";
    var units := if e == Hourly then "&units=metric&cnt=8" else "&units=metric";
    match loc
    case ByName(city) =>
      assert path + "q=" == (if e == Weather then "/weather?q=" else "/forecast?q=");
      RegroupName(BaseUrl, path, "q=", city, "&appid=", key, units);
      (match e
       case Weather => BaseUrl + "/weather?q=" + city + "&appid=" + key + "&units=metric"
       case Forecast => BaseUrl + "/forecast?q=" + city + "&appid=" + key + "&units=metric"
       case Hourly => BaseUrl + "/forecast?q=" + city + "&appid=" + key + "&units=metric&cnt=8")
    case ByCoords(c) =>
      assert path + "lat=" == (if e == Weather then "/weather?lat=" else "/forecast?lat=");
      RegroupCoords(BaseUrl, path, "lat=", c.lat, "&lon=", c.lon, "&appid=", key, units);
      match e
      case Weather =>
        BaseUrl + "/weather?lat=" + c.lat + "&lon=" + c.lon + "&appid=" + key + "&units=metric"
      case Forecast =>
        BaseUrl + "/forecast?lat=" + c.lat + "&lon=" + c.lon + "&appid=" + key + "&units=metric"
      case Hourly =>
        BaseUrl + "/forecast?lat=" + c.lat + "&lon=" + c.lon + "&appid=" + key + "&units=metric&cnt=8"
  }

  lemma RegroupCount(x: string, a: string, k: string, u: string, c: string)
    ensures x + (a + k + (u + c)) == x + (a + k + u) + c
  {
  }

  /** The hourly URL is the forecast URL with `&cnt=8` appended. */
  lemma HourlyUrlExtendsForecast(key: string, loc: Location)
    ensures Url(key, Hourly, loc) == Url(key, Forecast, loc) + "&cnt=8"
  {
    assert Prefix(Hourly) == Prefix(Forecast);
    assert "&units=metric&cnt=8" == "&units=metric" + "&cnt=8";
    RegroupCount(Prefix(Forecast) + Params(loc), "&appid=", key, "&units=metric", "&cnt=8");
  }

  /** Reads a location back from the query part built by `Params`. */
  function ParseParams(m: string): (r: Option<Location>)
    ensures r.Some? ==> Params(r.value) == m
  {
    if |m| >= 2 && m[..2] == "q=" then
      assert m == "q=" + m[2..];
      Some(ByName(m[2..]))
    else if |m| >= 4 && m[..4] == "lat=" then
      match ParseCoordPair(m[4..])
      case None => None
      case Some(c) =>
        assert m == "lat=" + m[4..];
        Regroup4("lat=", c.lat, "&lon=", c.lon);
        Some(ByCoords(c))
    else None
  }

  lemma Regroup4(a: string, x: string, b: string, y: string)
    ensures a + x + b + y == a + (x + b + y)
  {
  }

  /** Reads `lat&lon=lon` back, cutting at the first `&`. */
  function ParseCoordPair(rest: string): (r: Option<Coords>)
    ensures r.Some? ==> rest == r.value.lat + "&lon=" + r.value.lon
  {
    match IndexOf(rest, '&')
    case None => None
    case Some(k) =>
      if |rest| - k >= 5 && rest[k..k + 5] == "&lon=" then
        assert rest == rest[..k] + rest[k..k + 5] + rest[k + 5..];
        Some(Coords(rest[..k], rest[k + 5..]))
      else None
  }

  lemma CoordPairRoundTrip(x: string, y: string)
    requires '&' !in x
    ensures ParseCoordPair(x + "&lon=" + y) == Some(Coords(x, y))
  {
    Split3(x, "&lon=", y);
    IndexOfAfter(x, '&', "lon=" + y);
  }

  lemma ParseParamsRoundTrip(loc: Location)
    requires Addressable(loc)
    ensures ParseParams(Params(loc)) == Some(loc)
  {
    match loc
    case ByName(city) =>
      var m := Params(loc);
      assert m[..2] == "q=" && m[2..] == city;
    case ByCoords(c) =>
      ParseCoordParams(c);
  }

  lemma ParseCoordParams(c: Coords)
    requires WellFormed(c)
    ensures ParseParams(Params(ByCoords(c))) == Some(ByCoords(c))
  {
    var m := Params(ByCoords(c));
    Split4("lat=", c.lat, "&lon=", c.lon);
    assert m[..2] != "q=" by { assert m[0] == 'l'; }
    assert '&' !in c.lat;
    CoordPairRoundTrip(c.lat, c.lon);
  }

  /** Cutting `a + x + b + y` after `a`. */
  lemma Split4(a: string, x: string, b: string, y: string)
    ensures var m := a + x + b + y;
      m[..|a|] == a && m[|a|..] == x + b + y
  {
  }

  /** The pieces of `x + b + y` for a separator `b` that starts with a mark. */
  lemma Split3(x: string, b: string, y: string)
    requires |b| > 0
    ensures var r := x + b + y;
      && r == x + [b[0]] + (b[1..] + y)
      && r[..|x|] == x
      && r[|x|..|x| + |b|] == b
      && r[|x| + |b|..] == y
  {
    assert b == [b[0]] + b[1..];
  }

  /** `url` has the path of `e` in front and the parameters of `e` at the end. */
  predicate Framed(key: string, e: Endpoint, url: string) {
    var pre := Prefix(e);
    var suf := Suffix(key, e);
    |pre| + |suf| <= |url| && url[..|pre|] == pre && url[|url| - |suf|..] == suf
  }

  /** The location parameters of a framed URL. */
  function Inner(key: string, e: Endpoint, url: string): (m: string)
    requires Framed(key, e, url)
    ensures url == Prefix(e) + m + Suffix(key, e)
  {
    var pre := Prefix(e);
    var suf := Suffix(key, e);
    var m := url[|pre|..|url| - |suf|];
    assert url == url[..|pre|] + m + url[|url| - |suf|..];
    m
  }

  function DecodeAs(key: string, e: Endpoint, url: string): (r: Option<(Endpoint, Location)>)
    requires Framed(key, e, url)
    ensures r.Some? ==> r.value.0 == e && Url(key, e, r.value.1) == url
  {
    match ParseParams(Inner(key, e, url))
    case Some(loc) =>
      Some((e, loc))
    case None => None
  }

  /** Reads the endpoint and the location back from a request URL. */
  function DecodeUrl(key: string, url: string): (r: Option<(Endpoint, Location)>)
    ensures r.Some? ==> Url(key, r.value.0, r.value.1) == url
  {
    if Framed(key, Weather, url) then DecodeAs(key, Weather, url)
    else if Framed(key, Hourly, url) then DecodeAs(key, Hourly, url)
    else if Framed(key, Forecast, url) then DecodeAs(key, Forecast, url)
    else None
  }

  /** `Prefix(e) + m + Suffix(key, e)` is framed by `e`, with `m` inside. */
  lemma FramedParts(key: string, e: Endpoint, m: string)
    ensures Framed(key, e, Prefix(e) + m + Suffix(key, e))
    ensures Inner(key, e, Prefix(e) + m + Suffix(key, e)) == m
  {
    var url := Prefix(e) + m + Suffix(key, e);
    assert url[..|Prefix(e)|] == Prefix(e);
    assert url[|url| - |Suffix(key, e)|..] == Suffix(key, e);
    assert url[|Prefix(e)|..|url| - |Suffix(key, e)|] == m;
  }

  /** A URL that starts with `p` does not start with a `q` that differs from
      `p` at position `i`. */
  lemma PrefixesDisagree(p: string, q: string, url: string, i: nat)
    requires i < |p| && i < |q| && p[i] != q[i]
    requires |p| <= |url| && url[..|p|] == p
    ensures !(|q| <= |url| && url[..|q|] == q)
  {
    assert url[i] == p[i];
  }

  /** A URL that ends with `p` does not end with a `q` whose last character
      differs from that of `p`. */
  lemma SuffixesDisagree(p: string, q: string, url: string)
    requires |p| > 0 && |q| > 0 && p[|p| - 1] != q[|q| - 1]
    requires |p| <= |url| && url[|url| - |p|..] == p
    ensures !(|q| <= |url| && url[|url| - |q|..] == q)
  {
    assert url[|url| - 1] == p[|p| - 1];
  }

  /** The letter after the base path tells the weather path from the forecast
      path; the last letter tells the hourly parameters from the others. */
  lemma DistinguishingLetters(key: string)
    ensures Prefix(Weather)[|BaseUrl| + 1] == 'w'
    ensures Prefix(Forecast)[|BaseUrl| + 1] == 'f' && Prefix(Hourly) == Prefix(Forecast)
    ensures var s := Suffix(key, Forecast); |s| > 0 && s[|s| - 1] == 'c'
    ensures var s := Suffix(key, Hourly); |s| > 0 && s[|s| - 1] == '8'
  {
    assert Prefix(Weather) == BaseUrl + "/weather?";
    assert Prefix(Forecast) == BaseUrl + "/forecast?";
    assert Suffix(key, Forecast) == "&appid=" + key + "&units=metric";
    assert Suffix(key, Hourly) == "&appid=" + key + "&units=metric&cnt=8";
  }

  /** Every request URL determines its endpoint and its location: the three
      calls of one lookup differ in their endpoint only, and two different
      locations never share a URL. */
  lemma DecodeUrlRoundTrip(key: string, e: Endpoint, loc: Location)
    requires Addressable(loc)
    ensures DecodeUrl(key, Url(key, e, loc)) == Some((e, loc))
  {
    var url := Url(key, e, loc);
    FramedParts(key, e, Params(loc));
    ParseParamsRoundTrip(loc);
    DistinguishingLetters(key);
    if e != Weather {
      PrefixesDisagree(Prefix(e), Prefix(Weather), url, |BaseUrl| + 1);
    }
    if e == Forecast {
      SuffixesDisagree(Suffix(key, Forecast), Suffix(key, Hourly), url);
    }
  }

  /** What `fetch` delivers: a rejected promise with the error's message, or a
      response with its `ok` flag and the outcome of `response.json()`. */
  datatype Reply<+B> = NetworkError(message: string) | Response(ok: bool, json: Result<B>)

  const CityNotFound: string := "City not found"

  /** The message each call falls back to when a caught error has none. */
  function Fallback(e: Endpoint): (m: string)
    ensures m != "" && m != CityNotFound
  {
    match e
    case Weather => "Failed to fetch weather data"
    case Forecast => "Failed to fetch forecast data"
    case Hourly => "Failed to fetch hourly forecast data"
  }

  /** The message a call throws on a non-OK response: "City not found"
      exactly for the name-based calls, and never empty. */
  function NotOkMessage(e: Endpoint, loc: Location): (m: string)
    ensures m != ""
    ensures m == CityNotFound <==> loc.ByName?
  {
    if loc.ByName? then CityNotFound else Fallback(e)
  }

  /** Name-based calls report a missing city; coordinate calls name the
      dataset they failed to fetch. */
  lemma NotOkMessages(e: Endpoint, city: string, c: Coords)
    ensures NotOkMessage(e, ByName(city)) == "City not found"
    ensures NotOkMessage(Weather, ByCoords(c)) == "Failed to fetch weather data"
    ensures NotOkMessage(Forecast, ByCoords(c)) == "Failed to fetch forecast data"
    ensures NotOkMessage(Hourly, ByCoords(c)) == "Failed to fetch hourly forecast data"
  {
  }

  /** Settles a reply as the body of every call does: a non-OK response throws
      `notOk`, and whatever is caught is rethrown with its own message, or with
      `fallback` when that message is empty. */
  function Settle<B>(reply: Reply<B>, notOk: string, fallback: string): (r: Result<B>)
    ensures r.Ok? <==> reply.Response? && reply.ok && reply.json.Ok?
    ensures r.Ok? ==> r.value == reply.json.value
    ensures reply.Response? && !reply.ok ==> r == Err(if notOk == "" then fallback else notOk)
    ensures reply.NetworkError? ==> r == Err(if reply.message == "" then fallback else reply.message)
    ensures reply.Response? && reply.ok && reply.json.Err? ==>
      r == Err(if reply.json.message == "" then fallback else reply.json.message)
    ensures r.Err? && fallback != "" ==> r.message != ""
  {
    var thrown: Result<B> :=
      match reply
      case NetworkError(m) => Err(m)
      case Response(ok, json) => if ok then json else Err(notOk);
    match thrown
    case Ok(body) => Ok(body)
    case Err(m) => Err(if m == "" then fallback else m)
  }

  /** One provider call: fetch the URL and settle the reply. An OK response
      yields its parsed body unchanged; every failure carries a message. */
  function Get<B>(key: string, e: Endpoint, loc: Location, fetch: string -> Reply<B>): (r: Result<B>)
    ensures var reply := fetch(Url(key, e, loc));
      && (r.Ok? <==> reply.Response? && reply.ok && reply.json.Ok?)
      && (r.Ok? ==> r.value == reply.json.value)
      && (reply.Response? && !reply.ok ==> r == Err(NotOkMessage(e, loc)))
      && (reply.NetworkError? ==> r == Err(if reply.message == "" then Fallback(e) else reply.message))
      && (reply.Response? && reply.ok && reply.json.Err? ==>
            r == Err(if reply.json.message == "" then Fallback(e) else reply.json.message))
      && (r.Err? ==> r.message != "")
  {
    Settle(fetch(Url(key, e, loc)), NotOkMessage(e, loc), Fallback(e))
  }
}
