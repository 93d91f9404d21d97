/**
 * The five-day panel: the forecast `list` is grouped by calendar day in order
 * of first occurrence, the first five groups are kept, and each is summed up
 * by its low, its high, its first condition and the icon of its middle sample.
 */
module Forecast {
  import opened Wrappers
  import opened Provider
  import opened Units

  // ---------------------------------------------------------------------------
  // Reference definitions: the days of a list and the samples of each day.
  // ---------------------------------------------------------------------------

  /** Some sample of `list` falls on day `d`. */
  predicate HasDay(list: seq<Sample>, d: int) {
    exists i :: 0 <= i < |list| && list[i].day == d
  }

  predicate Distinct(keys: seq<int>) {
    forall i, j :: 0 <= i < j < |keys| ==> keys[i] != keys[j]
  }

  lemma HasDaySnoc(p: seq<Sample>, x: Sample, d: int)
    ensures HasDay(p + [x], d) <==> HasDay(p, d) || x.day == d
  {
    if HasDay(p, d) {
      var i :| 0 <= i < |p| && p[i].day == d;
      assert (p + [x])[i] == p[i];
    }
    if HasDay(p + [x], d) && x.day != d {
      var i :| 0 <= i < |p + [x]| && (p + [x])[i].day == d;
      assert i < |p| && p[i] == (p + [x])[i];
    }
    assert (p + [x])[|p|] == x;
  }

  /** The distinct days of `list`, in the order in which each first occurs. */
  function DayKeys(list: seq<Sample>): (keys: seq<int>)
    ensures Distinct(keys)
    ensures forall d :: d in keys <==> HasDay(list, d)
  {
    if list == [] then []
    else
      var p := list[..|list| - 1];
      var x := list[|list| - 1];
      assert list == p + [x];
      var keys := DayKeys(p);
      forall d ensures HasDay(list, d) <==> HasDay(p, d) || x.day == d {
        HasDaySnoc(p, x, d);
      }
      if x.day in keys then keys else keys + [x.day]
  }

  /** The samples of `list` that fall on day `d`, in list order. */
  function SamplesOn(list: seq<Sample>, d: int): (r: seq<Sample>)
    ensures |r| <= |list|
    ensures forall i :: 0 <= i < |r| ==> r[i].day == d
    ensures r == [] <==> !HasDay(list, d)
  {
    if list == [] then []
    else
      var p := list[..|list| - 1];
      var x := list[|list| - 1];
      assert list == p + [x];
      HasDaySnoc(p, x, d);
      SamplesOn(p, d) + (if x.day == d then [x] else [])
  }

  lemma DayKeysSnoc(p: seq<Sample>, x: Sample)
    ensures DayKeys(p + [x]) == if x.day in DayKeys(p) then DayKeys(p) else DayKeys(p) + [x.day]
  {
    assert (p + [x])[..|p|] == p;
  }

  lemma SamplesOnSnoc(p: seq<Sample>, x: Sample, d: int)
    ensures SamplesOn(p + [x], d) == SamplesOn(p, d) + (if x.day == d then [x] else [])
  {
    assert (p + [x])[..|p|] == p;
  }

  /** Grouping distributes over concatenation, so every group keeps the
      samples of its day in list order. */
  lemma {:induction false} SamplesOnAppend(a: seq<Sample>, b: seq<Sample>, d: int)
    ensures SamplesOn(a + b, d) == SamplesOn(a, d) + SamplesOn(b, d)
    decreases |b|
  {
    if b == [] {
      assert a + b == a;
    } else {
      var b' := b[..|b| - 1];
      var y := b[|b| - 1];
      assert b == b' + [y];
      assert a + b == (a + b') + [y];
      SamplesOnSnoc(a + b', y, d);
      SamplesOnAppend(a, b', d);
      SamplesOnSnoc(b', y, d);
    }
  }

  /** The position of the first sample of `list` on day `d`. */
  function FirstIndex(list: seq<Sample>, d: int): (i: nat)
    requires HasDay(list, d)
    ensures i < |list| && list[i].day == d
    ensures forall j :: 0 <= j < i ==> list[j].day != d
  {
    if list[0].day == d then 0
    else
      assert HasDay(list[1..], d) by {
        var i :| 0 <= i < |list| && list[i].day == d;
        assert list[1..][i - 1] == list[i];
      }
      var i := 1 + FirstIndex(list[1..], d);
      assert forall j :: 1 <= j < i ==> list[j] == list[1..][j - 1];
      i
  }

  lemma FirstIndexUnique(list: seq<Sample>, d: int, i: nat)
    requires i < |list| && list[i].day == d
    requires forall j :: 0 <= j < i ==> list[j].day != d
    ensures FirstIndex(list, d) == i
  {
  }

  /** A group's first sample is the first sample of its day in the list. */
  lemma FirstSample(list: seq<Sample>, d: int)
    requires HasDay(list, d)
    ensures SamplesOn(list, d)[0] == list[FirstIndex(list, d)]
  {
    var i := FirstIndex(list, d);
    assert list == list[..i] + ([list[i]] + list[i + 1..]);
    assert !HasDay(list[..i], d);
    SamplesOnAppend(list[..i], [list[i]] + list[i + 1..], d);
    SamplesOnAppend([list[i]], list[i + 1..], d);
    SamplesOnSnoc([], list[i], d);
    assert [] + [list[i]] == [list[i]];
  }

  lemma FirstIndexSnoc(p: seq<Sample>, x: Sample, d: int)
    requires HasDay(p + [x], d)
    ensures HasDay(p, d) ==> FirstIndex(p + [x], d) == FirstIndex(p, d)
    ensures !HasDay(p, d) ==> FirstIndex(p + [x], d) == |p|
  {
    var l := p + [x];
    if HasDay(p, d) {
      var i := FirstIndex(p, d);
      assert l[i] == p[i];
      assert forall j :: 0 <= j < i ==> l[j] == p[j];
      FirstIndexUnique(l, d, i);
    } else {
      HasDaySnoc(p, x, d);
      assert forall j :: 0 <= j < |p| ==> l[j] == p[j] && p[j].day != d;
      assert l[|p|] == x;
      FirstIndexUnique(l, d, |p|);
    }
  }

  /** The days are listed in the order in which each first occurs. */
  lemma {:induction false} DayKeysInFirstOccurrenceOrder(list: seq<Sample>)
    ensures forall i, j :: 0 <= i < j < |DayKeys(list)| ==>
      FirstIndex(list, DayKeys(list)[i]) < FirstIndex(list, DayKeys(list)[j])
    decreases |list|
  {
    if list != [] {
      var p := list[..|list| - 1];
      var x := list[|list| - 1];
      assert list == p + [x];
      DayKeysInFirstOccurrenceOrder(p);
      DayKeysSnoc(p, x);
      var keys := DayKeys(p);
      forall k | 0 <= k < |keys|
        ensures FirstIndex(list, keys[k]) == FirstIndex(p, keys[k]) < |p|
      {
        HasDaySnoc(p, x, keys[k]);
        FirstIndexSnoc(p, x, keys[k]);
      }
      if x.day !in keys {
        HasDaySnoc(p, x, x.day);
        FirstIndexSnoc(p, x, x.day);
      }
    }
  }

  // ---------------------------------------------------------------------------
  // Every sample lands in exactly one group.
  // ---------------------------------------------------------------------------

  /** The total size of the groups of `keys`. */
  function SumSizes(list: seq<Sample>, keys: seq<int>): nat {
    if keys == [] then 0 else |SamplesOn(list, keys[0])| + SumSizes(list, keys[1..])
  }

  function Count(keys: seq<int>, d: int): nat {
    if keys == [] then 0 else (if keys[0] == d then 1 else 0) + Count(keys[1..], d)
  }

  lemma {:induction false} CountDistinct(keys: seq<int>, d: int)
    requires Distinct(keys)
    ensures Count(keys, d) == if d in keys then 1 else 0
  {
    if keys != [] {
      assert Distinct(keys[1..]) by {
        forall i, j | 0 <= i < j < |keys[1..]| ensures keys[1..][i] != keys[1..][j] {
          assert keys[1..][i] == keys[i + 1] && keys[1..][j] == keys[j + 1];
        }
      }
      CountDistinct(keys[1..], d);
      assert d in keys <==> keys[0] == d || d in keys[1..];
      if keys[0] == d {
        assert d !in keys[1..];
      }
    }
  }

  lemma {:induction false} SumSizesSnocSample(p: seq<Sample>, x: Sample, keys: seq<int>)
    ensures SumSizes(p + [x], keys) == SumSizes(p, keys) + Count(keys, x.day)
  {
    if keys != [] {
      SamplesOnSnoc(p, x, keys[0]);
      SumSizesSnocSample(p, x, keys[1..]);
    }
  }

  lemma {:induction false} SumSizesSnocKey(list: seq<Sample>, keys: seq<int>, d: int)
    ensures SumSizes(list, keys + [d]) == SumSizes(list, keys) + |SamplesOn(list, d)|
  {
    if keys == [] {
      assert [] + [d] == [d];
    } else {
      assert (keys + [d])[1..] == keys[1..] + [d];
      SumSizesSnocKey(list, keys[1..], d);
    }
  }

  /** The day groups partition the list: their sizes add up to its length, and
      each group holds only samples of its own day. */
  lemma {:induction false} EverySampleInOneGroup(list: seq<Sample>)
    ensures SumSizes(list, DayKeys(list)) == |list|
    decreases |list|
  {
    if list != [] {
      var p := list[..|list| - 1];
      var x := list[|list| - 1];
      assert list == p + [x];
      EverySampleInOneGroup(p);
      DayKeysSnoc(p, x);
      SumSizesSnocSample(p, x, DayKeys(p));
      CountDistinct(DayKeys(p), x.day);
      if x.day !in DayKeys(p) {
        SumSizesSnocKey(list, DayKeys(p), x.day);
        SamplesOnSnoc(p, x, x.day);
      }
    }
  }

  // ---------------------------------------------------------------------------
  // The groups `getDailyForecast` builds and the entries it returns.
  // ---------------------------------------------------------------------------

  /** An entry of `dailyData`: the first sample's time and condition, and the
      temperatures and samples pushed so far. */
  datatype Group = Group(date: int, day: int, weather: Condition, temps: seq<real>, items: seq<Sample>)

  /** A day of the panel: `date` is the time of its first sample, `day` that
      time's calendar day. */
  datatype DayForecast = DayForecast(
    date: int, day: int, weather: Condition, minTemp: real, maxTemp: real, icon: string)

  /** The temperatures of `items`, in order. */
  function Temps(items: seq<Sample>): (r: seq<real>)
    ensures |r| == |items|
    ensures forall i :: 0 <= i < |items| ==> r[i] == items[i].temp
  {
    if items == [] then [] else Temps(items[..|items| - 1]) + [items[|items| - 1].temp]
  }

  /** `Math.min(...ts)`: the smallest element. */
  function MinOf(ts: seq<real>): (m: real)
    requires |ts| > 0
    ensures m in ts
    ensures forall i :: 0 <= i < |ts| ==> m <= ts[i]
  {
    if |ts| == 1 then ts[0]
    else
      var rest := MinOf(ts[1..]);
      assert forall i :: 1 <= i < |ts| ==> ts[i] == ts[1..][i - 1];
      if ts[0] <= rest then ts[0] else rest
  }

  /** `Math.max(...ts)`: the largest element. */
  function MaxOf(ts: seq<real>): (m: real)
    requires |ts| > 0
    ensures m in ts
    ensures forall i :: 0 <= i < |ts| ==> ts[i] <= m
  {
    if |ts| == 1 then ts[0]
    else
      var rest := MaxOf(ts[1..]);
      assert forall i :: 1 <= i < |ts| ==> ts[i] == ts[1..][i - 1];
      if ts[0] >= rest then ts[0] else rest
  }

  /** The group of day `d` once all of `list` has been pushed. */
  function GroupOf(list: seq<Sample>, d: int): Group
    requires HasDay(list, d)
  {
    var on := SamplesOn(list, d);
    Group(on[0].dt, d, on[0].condition, Temps(on), on)
  }

  /** `groups` is `dailyData` after the samples of `list` were pushed, in
      insertion order. */
  ghost predicate Grouped(list: seq<Sample>, groups: seq<Group>) {
    var keys := DayKeys(list);
    && |groups| == |keys|
    && forall j :: 0 <= j < |groups| ==> HasDay(list, keys[j]) && groups[j] == GroupOf(list, keys[j])
  }

  lemma GroupedSnocKnown(p: seq<Sample>, x: Sample, groups: seq<Group>, k: nat)
    requires Grouped(p, groups) && k < |groups| && groups[k].day == x.day
    ensures var g := groups[k];
      Grouped(p + [x], groups[k := g.(temps := g.temps + [x.temp], items := g.items + [x])])
  {
    var keys := DayKeys(p);
    assert keys[k] == x.day;
    DayKeysSnoc(p, x);
    var g := groups[k];
    var groups' := groups[k := g.(temps := g.temps + [x.temp], items := g.items + [x])];
    forall j | 0 <= j < |groups'|
      ensures HasDay(p + [x], keys[j]) && groups'[j] == GroupOf(p + [x], keys[j])
    {
      HasDaySnoc(p, x, keys[j]);
      SamplesOnSnoc(p, x, keys[j]);
      if j == k {
        var on := SamplesOn(p, x.day);
        assert (on + [x])[0] == on[0];
        assert (on + [x])[..|on|] == on;
      } else {
        assert keys[j] != x.day;
      }
    }
  }

  lemma GroupedSnocNew(p: seq<Sample>, x: Sample, groups: seq<Group>)
    requires Grouped(p, groups) && !HasDay(p, x.day)
    ensures Grouped(p + [x], groups + [Group(x.dt, x.day, x.condition, [x.temp], [x])])
  {
    var keys := DayKeys(p);
    DayKeysSnoc(p, x);
    var groups' := groups + [Group(x.dt, x.day, x.condition, [x.temp], [x])];
    forall j | 0 <= j < |groups'|
      ensures HasDay(p + [x], (keys + [x.day])[j]) && groups'[j] == GroupOf(p + [x], (keys + [x.day])[j])
    {
      var d := (keys + [x.day])[j];
      HasDaySnoc(p, x, d);
      SamplesOnSnoc(p, x, d);
      if j == |groups| {
        assert SamplesOn(p, x.day) == [];
        assert [] + [x] == [x];
        assert Temps([x]) == [x.temp];
      }
    }
  }

  /** One day of the panel: the low and the high of its samples, its first
      sample's time and condition, and the icon of sample `floor(n/2)`. */
  function Summarize(g: Group): (e: DayForecast)
    requires |g.items| > 0 && |g.temps| > 0
    ensures e.date == g.date && e.day == g.day && e.weather == g.weather
    ensures e.minTemp in g.temps && e.maxTemp in g.temps
    ensures forall i :: 0 <= i < |g.temps| ==> e.minTemp <= g.temps[i] <= e.maxTemp
    ensures e.icon == g.items[|g.items| / 2].condition.icon
  {
    DayForecast(g.date, g.day, g.weather, MinOf(g.temps), MaxOf(g.temps),
                g.items[|g.items| / 2].condition.icon)
  }

  /** `e` is what the panel shows for day `d` of `list`. */
  ghost predicate Describes(list: seq<Sample>, d: int, e: DayForecast) {
    var on := SamplesOn(list, d);
    && on != []
    && e.day == d
    && e.date == on[0].dt
    && e.weather == on[0].condition
    && (forall i :: 0 <= i < |on| ==> e.minTemp <= on[i].temp <= e.maxTemp)
    && (exists i :: 0 <= i < |on| && on[i].temp == e.minTemp)
    && (exists i :: 0 <= i < |on| && on[i].temp == e.maxTemp)
    && e.icon == on[|on| / 2].condition.icon
  }

  /** `days` is the panel for `list`: one entry for each of the first five
      days, in order of first occurrence. */
  ghost predicate IsDailyForecast(list: seq<Sample>, days: seq<DayForecast>) {
    var keys := DayKeys(list);
    && |days| == (if |keys| < 5 then |keys| else 5)
    && forall j :: 0 <= j < |days| ==> Describes(list, keys[j], days[j])
  }

  lemma SummarizeDescribes(list: seq<Sample>, d: int)
    requires HasDay(list, d)
    ensures var g := GroupOf(list, d);
      |g.items| > 0 && |g.temps| > 0 && Describes(list, d, Summarize(g))
  {
    var g := GroupOf(list, d);
    var on := SamplesOn(list, d);
    var lo := MinOf(g.temps);
    var hi := MaxOf(g.temps);
    var a :| 0 <= a < |g.temps| && g.temps[a] == lo;
    var b :| 0 <= b < |g.temps| && g.temps[b] == hi;
    assert on[a].temp == lo && on[b].temp == hi;
  }

  /** `Object.values(dailyData).slice(0, n).map(...)`. */
  function Summaries(groups: seq<Group>): (days: seq<DayForecast>)
    requires forall j :: 0 <= j < |groups| ==> |groups[j].items| > 0 && |groups[j].temps| > 0
    ensures |days| == |groups|
    ensures forall j :: 0 <= j < |groups| ==> days[j] == Summarize(groups[j])
  {
    if groups == [] then []
    else
      var head, rest := Summarize(groups[0]), Summaries(groups[1..]);
      assert forall j :: 1 <= j < |groups| ==> rest[j - 1] == Summarize(groups[j]);
      [head] + rest
  }

  lemma FirstGroupsDescribe(list: seq<Sample>, groups: seq<Group>, n: nat)
    requires Grouped(list, groups) && n == (if |groups| < 5 then |groups| else 5)
    ensures forall j :: 0 <= j < n ==> |groups[j].items| > 0 && |groups[j].temps| > 0
    ensures IsDailyForecast(list, Summaries(groups[..n]))
  {
    var keys := DayKeys(list);
    forall j | 0 <= j < n ensures |groups[j].items| > 0 && |groups[j].temps| > 0 {
      SummarizeDescribes(list, keys[j]);
    }
    var days := Summaries(groups[..n]);
    forall j | 0 <= j < n ensures Describes(list, keys[j], days[j]) {
      SummarizeDescribes(list, keys[j]);
    }
  }

  /** The state of `getDailyForecast` after the samples of `p`: the groups in
      insertion order, and `index` giving each seen day's group. */
  ghost predicate Built(p: seq<Sample>, groups: seq<Group>, index: map<int, nat>) {
    && Grouped(p, groups)
    && (forall d :: d in index <==> HasDay(p, d))
    && (forall d :: d in index ==> index[d] < |groups| && groups[index[d]].day == d)
  }

  /** Pushing a sample of a day already seen extends that day's group. */
  lemma PushKnown(p: seq<Sample>, x: Sample, groups: seq<Group>, index: map<int, nat>)
    requires Built(p, groups, index) && x.day in index
    ensures var k := index[x.day]; var g := groups[k];
      Built(p + [x], groups[k := g.(temps := g.temps + [x.temp], items := g.items + [x])], index)
  {
    GroupedSnocKnown(p, x, groups, index[x.day]);
    forall d ensures HasDay(p + [x], d) <==> HasDay(p, d) || x.day == d {
      HasDaySnoc(p, x, d);
    }
  }

  /** A sample of a new day opens a group at the end. */
  lemma PushNew(p: seq<Sample>, x: Sample, groups: seq<Group>, index: map<int, nat>)
    requires Built(p, groups, index) && x.day !in index
    ensures Built(p + [x], groups + [Group(x.dt, x.day, x.condition, [x.temp], [x])],
                  index[x.day := |groups|])
  {
    GroupedSnocNew(p, x, groups);
    forall d ensures HasDay(p + [x], d) <==> HasDay(p, d) || x.day == d {
      HasDaySnoc(p, x, d);
    }
  }

  /** `getDailyForecast`: builds `dailyData` in one pass over `list`, then keeps
      the first five groups and sums each one up. */
  method GetDailyForecast(list: seq<Sample>) returns (days: seq<DayForecast>)
    ensures IsDailyForecast(list, days)
  {
    var groups: seq<Group> := [];
    var index: map<int, nat> := map[];
    for i := 0 to |list|
      invariant Built(list[..i], groups, index)
    {
      var x := list[i];
      assert list[..i + 1] == list[..i] + [x];
      if x.day in index {
        var k := index[x.day];
        var g := groups[k];
        PushKnown(list[..i], x, groups, index);
        groups := groups[k := g.(temps := g.temps + [x.temp], items := g.items + [x])];
      } else {
        PushNew(list[..i], x, groups, index);
        index := index[x.day := |groups|];
        groups := groups + [Group(x.dt, x.day, x.condition, [x.temp], [x])];
      }
    }
    assert list[..|list|] == list;
    var n := if |groups| < 5 then |groups| else 5;
    FirstGroupsDescribe(list, groups, n);
    days := Summaries(groups[..n]);
  }

  /** The panel as the component renders it: nothing when the forecast or its
      `list` is missing. */
  method DailyForecast(forecast: Option<ForecastData>) returns (days: Option<seq<DayForecast>>)
    ensures days.None? <==> forecast.None? || forecast.value.list.None?
    ensures days.Some? ==> IsDailyForecast(forecast.value.list.value, days.value)
  {
    if forecast.None? || forecast.value.list.None? {
      return None;
    }
    var d := GetDailyForecast(forecast.value.list.value);
    days := Some(d);
  }

  /** The panel shows each day's low at or below its high, in either unit. */
  lemma DisplayedRangeOrdered(list: seq<Sample>, days: seq<DayForecast>, j: nat, isCelsius: bool)
    requires IsDailyForecast(list, days) && j < |days|
    ensures ConvertTemp(days[j].minTemp, isCelsius) <= ConvertTemp(days[j].maxTemp, isCelsius)
  {
    var on := SamplesOn(list, DayKeys(list)[j]);
    assert days[j].minTemp <= on[0].temp <= days[j].maxTemp;
    ConvertTempMonotone(days[j].minTemp, days[j].maxTemp, isCelsius);
  }

  // ---------------------------------------------------------------------------
  // Day labels.
  // ---------------------------------------------------------------------------

  /** Short `en-US` weekday names, starting from day 0 (1 January 1970, a
      Thursday). */
  const WeekdayNames: seq<string> := ["Thu", "Fri", "Sat", "Sun", "Mon", "Tue", "Wed"]

  /** `formatDay`: "Today" and "Tomorrow" relative to the calendar day `today`,
      the short weekday name for any other day. */
  function FormatDay(day: int, today: int): (name: string)
    ensures name == "Today" <==> day == today
    ensures name == "Tomorrow" <==> day == today + 1
    ensures day != today && day != today + 1 ==> name == WeekdayNames[day % 7]
  {
    if day == today then "Today"
    else if day == today + 1 then "Tomorrow"
    else WeekdayNames[day % 7]
  }

  /** Over the week starting today, no two days share a label. */
  lemma WeekLabelsDistinct(today: int, i: nat, j: nat)
    requires i < j < 7
    ensures FormatDay(today + i, today) != FormatDay(today + j, today)
  {
  }
}
