/**
 * Rendering of a metric value as text for the summary prompt. Only the
 * choice of branch, the prefix and the suffix are modelled; the digits
 * themselves come from a renderer passed in by the caller.
 */
module Format {
  import opened Statements

  /** What `format_metric` may be given: None, a Python int/float, or any other value. */
  datatype Datum = Missing | Number(x: real) | Other(text: string)

  /** The three format specifications used: `:.2f`, `:,.0f` and `:,.2f`. */
  datatype Pattern = Fixed2 | Grouped0 | Grouped2

  /** Renders a number's digits under a format specification (Python's `format`). */
  type Render = (real, Pattern) -> string

  const Billion: real := 1000000000.0
  const Million: real := 1000000.0

  /**
   * Formats a value. Missing gives "N/A"; a percentage is the value times 100
   * with a "%" suffix and wins over currency; currency picks "B", "M" or a
   * grouped integer by the absolute value; a plain number is grouped with two
   * decimals; any other value is its own text. Non-numbers cannot be formatted
   * as a percentage or as currency (the code raises there).
   */
  function FormatMetric(value: Datum, isPercentage: bool, isCurrency: bool, render: Render): (s: string)
    requires value.Other? ==> !isPercentage && !isCurrency
    ensures value.Missing? ==> s == "N/A"
    ensures value.Number? && isPercentage ==> s == render(value.x * 100.0, Fixed2) + "%"
    ensures value.Number? && !isPercentage && isCurrency ==>
      s == if AbsValue(value.x) >= Billion then "$" + render(value.x / Billion, Fixed2) + "B"
           else if AbsValue(value.x) >= Million then "$" + render(value.x / Million, Fixed2) + "M"
           else "$" + render(value.x, Grouped0)
    ensures value.Number? && !isPercentage && !isCurrency ==> s == render(value.x, Grouped2)
    ensures value.Other? ==> s == value.text
  {
    if value.Missing? then "N/A"
    else if isPercentage then render(value.x * 100.0, Fixed2) + "%"
    else if isCurrency then
      var magnitude := AbsValue(value.x);
      if magnitude >= Billion then "$" + render(value.x / Billion, Fixed2) + "B"
      else if magnitude >= Million then "$" + render(value.x / Million, Fixed2) + "M"
      else "$" + render(value.x, Grouped0)
    else if value.Other? then value.text
    else render(value.x, Grouped2)
  }

  /** A cell as the Python value the scoring code hands over: None or a float. */
  function FromCell(v: Cell): (d: Datum)
    ensures d.Missing? <==> v.None?
    ensures v.Some? ==> d == Number(v.value)
  {
    if v.Some? then Number(v.value) else Missing
  }

  /** The suffix of a currency amount: "B" from a billion up, "M" from a million up, none below. */
  function CurrencyUnit(x: real): string {
    if AbsValue(x) >= Billion then "B" else if AbsValue(x) >= Million then "M" else ""
  }

  /** Percentage formatting takes precedence over currency and always ends in "%". */
  lemma {:induction false} PercentageWins(x: real, isCurrency: bool, render: Render)
    ensures FormatMetric(Number(x), true, isCurrency, render) == FormatMetric(Number(x), true, false, render)
    ensures var s := FormatMetric(Number(x), true, isCurrency, render); |s| > 0 && s[|s| - 1] == '%'
  {
  }

  /**
   * A currency amount starts with "$" and ends with the unit its magnitude
   * selects; a negative amount selects the same unit as its absolute value.
   */
  lemma {:induction false} CurrencyShape(x: real, render: Render)
    ensures var s := FormatMetric(Number(x), false, true, render);
      |s| > 0 && s[0] == '$' && (CurrencyUnit(x) != "" ==> s[|s| - 1] == CurrencyUnit(x)[0])
    ensures CurrencyUnit(-x) == CurrencyUnit(x)
  {
  }

  /** A value of exactly one billion or one million already takes the larger unit. */
  lemma {:induction false} CurrencyThresholdsInclusive()
    ensures CurrencyUnit(Billion) == "B" && CurrencyUnit(-Billion) == "B"
    ensures CurrencyUnit(Million) == "M" && CurrencyUnit(Billion - 1.0) == "M"
    ensures CurrencyUnit(Million - 1.0) == ""
  {
  }
}
