/** The display conversion of a Celsius temperature, shared by the forecast
    panels and the weather card. */
module Units {
  import opened Builtins

  /** `convertTemp`: the temperature rounded to whole degrees, converted to
      Fahrenheit first when `isCelsius` is false. The result is the integer
      nearest to the exact reading. */
  function ConvertTemp(t: real, isCelsius: bool): (r: int)
    ensures var exact := if isCelsius then t else t * 9.0 / 5.0 + 32.0;
      r as real - 0.5 <= exact < r as real + 0.5
  {
    if isCelsius then Round(t) else Round(t * 9.0 / 5.0 + 32.0)
  }

  /** Freezing, boiling and the point where both scales agree. */
  lemma FahrenheitLandmarks()
    ensures ConvertTemp(0.0, false) == 32
    ensures ConvertTemp(100.0, false) == 212
    ensures ConvertTemp(-40.0, false) == -40
    ensures ConvertTemp(-40.0, true) == -40
  {
  }

  /** Conversion keeps the order of temperatures, so a day's displayed low
      never exceeds its displayed high. */
  lemma ConvertTempMonotone(t1: real, t2: real, isCelsius: bool)
    requires t1 <= t2
    ensures ConvertTemp(t1, isCelsius) <= ConvertTemp(t2, isCelsius)
  {
    if isCelsius {
      RoundMonotone(t1, t2);
    } else {
      RoundMonotone(t1 * 9.0 / 5.0 + 32.0, t2 * 9.0 / 5.0 + 32.0);
    }
  }
}
