/**
 * The parts of the weather provider's JSON payloads that the dashboard reads.
 * Only `weather[0]` of each payload is ever consulted, so a payload carries
 * that first condition directly.
 */
module Provider {
  import opened Wrappers

  /** `weather[0]`: the condition group (`main`), its wording and its icon code. */
  datatype Condition = Condition(main: string, description: string, icon: string)

  /** The current-weather object: the place `name`, its condition and `main.temp`. */
  datatype Current = Current(name: string, condition: Condition, temp: real)

  /**
   * One 3-hourly entry of a forecast `list`. `dt` is the Unix timestamp; `day`
   * is the local calendar day that `dt` falls on, counted from 1 January 1970;
   * `clouds` is `clouds.all` (a percentage); `rain3h` is `rain["3h"]` when the
   * entry has one.
   */
  datatype Sample = Sample(
    dt: int,
    day: int,
    temp: real,
    feelsLike: real,
    condition: Condition,
    clouds: int,
    rain3h: Option<real>)

  /** A forecast object; `list` is `None` when the payload has no `list`. */
  datatype ForecastData = ForecastData(list: Option<seq<Sample>>)

  /**
   * A coordinate pair, each number held as the decimal text JavaScript renders
   * for it: both the request URLs and `JSON.stringify` write that same text.
   */
  datatype Coords = Coords(lat: string, lon: string)

  /** Characters that can occur in the rendering of a finite JavaScript number. */
  predicate IsNumberText(t: string) {
    |t| > 0 && forall i :: 0 <= i < |t| ==> t[i] in "0123456789+-.e"
  }

  /** Coordinates as a geolocation fix or `JSON.parse` delivers them. */
  predicate WellFormed(c: Coords) {
    IsNumberText(c.lat) && IsNumberText(c.lon)
  }
}
