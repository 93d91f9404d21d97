/**
 * The hourly panel: the first eight 3-hourly entries of the short forecast,
 * each shown with an estimated chance of rain.
 */
module Hourly {
  import opened Wrappers
  import opened Builtins
  import opened Provider

  /** How many entries the panel shows. */
  const HourCount := 8

  /** The entries shown: nothing when the payload or its `list` is missing,
      otherwise the first `HourCount` entries in order (all of them when there
      are fewer). */
  function TodayHourly(data: Option<ForecastData>): (r: Option<seq<Sample>>)
    ensures r.None? <==> data.None? || data.value.list.None?
    ensures r.Some? ==> var l := data.value.list.value;
      && |r.value| == (if |l| < HourCount then |l| else HourCount)
      && forall i :: 0 <= i < |r.value| ==> r.value[i] == l[i]
  {
    match data
    case None => None
    case Some(d) =>
      match d.list
      case None => None
      case Some(l) => Some(if |l| < HourCount then l else l[..HourCount])
  }

  /** `item.rain && item.rain["3h"]`: a rain volume that is present and not 0. */
  predicate HasVolume(s: Sample)
    ensures HasVolume(s) ==> s.rain3h.Some? && s.rain3h.value != 0.0
    ensures s.rain3h.None? ==> !HasVolume(s)
    ensures s.rain3h == Some(0.0) ==> !HasVolume(s)
    ensures s.rain3h.Some? && s.rain3h.value > 0.0 ==> HasVolume(s)
  {
    s.rain3h.Some? && s.rain3h.value != 0.0
  }

  /** The share of cloud cover that stands for the chance of rain under a
      condition name already in lower case: the first of "rain", "drizzle",
      "thunderstorm" the name contains decides. */
  function CloudShare(main: string): (share: real)
    ensures share in {0.8, 0.6, 0.9, 0.3}
    ensures Includes(main, "rain") ==> share == 0.8
    ensures !Includes(main, "rain") && Includes(main, "drizzle") ==> share == 0.6
    ensures !Includes(main, "rain") && !Includes(main, "drizzle") && Includes(main, "thunderstorm") ==> share == 0.9
    ensures share == 0.3 <==>
      !Includes(main, "rain") && !Includes(main, "drizzle") && !Includes(main, "thunderstorm")
  {
    if Includes(main, "rain") then 0.8
    else if Includes(main, "drizzle") then 0.6
    else if Includes(main, "thunderstorm") then 0.9
    else 0.3
  }

  /** `getRainChance`: a percentage from the 3-hour rain volume, capped at 100,
      when there is one; otherwise the rounded share of cloud cover that the
      condition stands for. */
  function RainChance(s: Sample): (p: int)
    ensures HasVolume(s) ==> p <= 100
    ensures HasVolume(s) ==> var x := s.rain3h.value / 3.0 * 100.0;
      && (x < 99.5 ==> p as real - 0.5 <= x < p as real + 0.5)
      && (x >= 99.5 ==> p == 100)
    ensures !HasVolume(s) ==>
      p as real - 0.5 <= s.clouds as real * CloudShare(ToLower(s.condition.main)) < p as real + 0.5
  {
    if HasVolume(s) then
      var v := Round(s.rain3h.value / 3.0 * 100.0);
      if v < 100 then v else 100
    else
      Round(s.clouds as real * CloudShare(ToLower(s.condition.main)))
  }

  /** With cloud cover a percentage and a non-negative volume, the chance is a
      percentage too. */
  lemma RainChanceIsPercentage(s: Sample)
    requires 0 <= s.clouds <= 100
    requires s.rain3h.Some? ==> s.rain3h.value >= 0.0
    ensures 0 <= RainChance(s) <= 100
  {
    if HasVolume(s) {
      RoundMonotone(0.0, s.rain3h.value / 3.0 * 100.0);
    } else {
      var x := s.clouds as real * CloudShare(ToLower(s.condition.main));
      RoundMonotone(0.0, x);
      RoundMonotone(x, 100.0);
    }
  }

  /** A volume of 3 mm or more in three hours reads as certain rain. */
  lemma HeavyRainSaturates(s: Sample)
    requires s.rain3h.Some? && s.rain3h.value >= 3.0
    ensures RainChance(s) == 100
  {
    RoundMonotone(100.0, s.rain3h.value / 3.0 * 100.0);
  }

  /** A reported volume of exactly 0 counts as no volume at all: the estimate
      from cloud cover applies. */
  lemma ZeroVolumeFallsThrough(s: Sample)
    requires s.rain3h == Some(0.0)
    ensures RainChance(s) == RainChance(s.(rain3h := None))
  {
  }

  /** Two readings: 1.5 mm in three hours is a 50% chance whatever the sky,
      and "Rain" under 75% cloud without a volume is 60%. */
  lemma RainChanceExamples(c: Condition, clouds: int)
    ensures RainChance(Sample(0, 0, 20.0, 20.0, c, clouds, Some(1.5))) == 50
    ensures RainChance(Sample(0, 0, 20.0, 20.0, Condition("Rain", "light rain", "10d"), 75, None)) == 60
  {
    assert ToLower("Rain") == "rain";
    assert OccursAt("rain", "rain", 0);
  }
}
