/** The app-wide display helpers (`src/lib/formatters.ts`). Digit rendering (`toFixed`,
    `toLocaleString`, `toExponential`) is not modelled: a result names the branch taken and the
    number handed to the renderer, with the literal text around it. */
module Formatters {

  import opened Common

  /** What a formatter prints. */
  datatype Rendering =
    | Literal(text: string)                                              // the whole output
    | Fixed(prefix: string, value: real, decimals: nat, suffix: string)  // prefix + value.toFixed(decimals) + suffix
    | Grouped(prefix: string, value: real)                               // prefix + value.toLocaleString(≤ 2 fraction digits)
    | Exponential(prefix: string, value: real)                           // prefix + value.toExponential(2)

  const Dash := "—"

  /** The power of ten a magnitude suffix stands for (1 for none). */
  function SuffixScale(suffix: string): real
  {
    if suffix == "T" then 1_000_000_000_000.0
    else if suffix == "B" then 1_000_000_000.0
    else if suffix == "M" then 1_000_000.0
    else if suffix == "K" then 1_000.0
    else 1.0
  }

  /** 10 to the power `-d`: the smallest positive amount `toFixed(d)` shows with a non-zero digit. */
  function Unit(d: nat): real
  {
    if d == 0 then 1.0 else Unit(d - 1) / 10.0
  }

  /** `!n` on an optional number: absent or zero. */
  predicate Falsy(n: Option<real>)
  {
    n.None? || n.value == 0.0
  }

  /** `formatPrice`: more decimals the smaller the price, so a non-zero digit is always shown;
      grouping from 1000 up; exponent notation below 1e-8 (and for negative prices). */
  function FormatPrice(n: Option<real>): (r: Rendering)
    ensures Falsy(n) <==> r == Literal(Dash)
    ensures !Falsy(n) ==> !r.Literal? && r.prefix == "$" && r.value == n.value
    ensures r.Grouped? ==> n.value >= 1000.0
    ensures r.Fixed? ==> r.suffix == "" && Unit(r.decimals) <= r.value < 1000.0
    ensures r.Exponential? ==> r.value < Unit(8)
    ensures !Falsy(n) && n.value >= 1000.0 ==> r == Grouped("$", n.value)
    ensures !Falsy(n) && 1.0 <= n.value < 1000.0 ==> r == Fixed("$", n.value, 2, "")
    ensures !Falsy(n) && 0.0001 <= n.value < 1.0 ==> r == Fixed("$", n.value, 4, "")
    ensures !Falsy(n) && 0.00000001 <= n.value < 0.0001 ==> r == Fixed("$", n.value, 8, "")
    ensures !Falsy(n) && n.value < 0.00000001 ==> r == Exponential("$", n.value)
  {
    if Falsy(n) then Literal(Dash)
    else
      var v := n.value;
      if v >= 1000.0 then Grouped("$", v)
      else if v >= 1.0 then Fixed("$", v, 2, "")
      else if v >= 0.0001 then Fixed("$", v, 4, "")
      else if v >= 0.00000001 then Fixed("$", v, 8, "")
      else Exponential("$", v)
  }

  /** `formatPriceStr`: a missing or empty string is the dash; anything else is parsed
      (`parseFloat`, `None` standing for NaN) and shown as a price. */
  function FormatPriceStr(price: Option<string>, parseFloat: string -> Option<real>): (r: Rendering)
    ensures !Truthy(price) ==> r == Literal(Dash)
    ensures Truthy(price) ==> r == FormatPrice(parseFloat(price.value))
  {
    if !Truthy(price) then Literal(Dash) else FormatPrice(parseFloat(price.value))
  }

  /** `formatBigNumber`: the dollar amount with the largest suffix among T, B, M, K that leaves a
      mantissa of at least 1. */
  function FormatBigNumber(n: Option<real>): (r: Rendering)
    ensures Falsy(n) <==> r == Literal(Dash)
    ensures !Falsy(n) ==> r.Fixed? && r.prefix == "$"
    ensures r.Fixed? ==> r.value * SuffixScale(r.suffix) == n.value
    ensures r.Fixed? && r.suffix != "" ==> r.value >= 1.0
    ensures r.Fixed? && r.suffix != "T" ==> r.value < 1000.0
    ensures r.Fixed? ==> r.suffix in {"", "K", "M", "B", "T"}
    ensures r.Fixed? && (r.suffix == "T" || r.suffix == "B") ==> r.decimals == 2
    ensures r.Fixed? && r.suffix == "M" ==> r.decimals == 1
    ensures r.Fixed? && (r.suffix == "K" || r.suffix == "") ==> r.decimals == 0
  {
    if Falsy(n) then Literal(Dash)
    else
      var v := n.value;
      if v >= 1_000_000_000_000.0 then Fixed("$", v / 1_000_000_000_000.0, 2, "T")
      else if v >= 1_000_000_000.0 then Fixed("$", v / 1_000_000_000.0, 2, "B")
      else if v >= 1_000_000.0 then Fixed("$", v / 1_000_000.0, 1, "M")
      else if v >= 1_000.0 then Fixed("$", v / 1_000.0, 0, "K")
      else Fixed("$", v, 0, "")
  }

  /** The three-way result of `formatPercent`. */
  datatype Percent = Percent(text: Rendering, isPositive: bool, isNegative: bool)

  /** `formatPercent`: a missing value is the dash with no sign; otherwise one decimal and a
      `%`, with `+` in front of exactly the positive values. Zero is neither positive nor negative. */
  function FormatPercent(value: Option<real>): (r: Percent)
    ensures value.None? ==> r == Percent(Literal(Dash), false, false)
    ensures value.Some? ==> r.text.Fixed? && r.text.value == value.value && r.text.decimals == 1 && r.text.suffix == "%"
    ensures value.Some? ==> (r.isPositive <==> value.value > 0.0) && (r.isNegative <==> value.value < 0.0)
    ensures !(r.isPositive && r.isNegative)
    ensures r.text.Fixed? ==> (r.text.prefix == "+" <==> r.isPositive) && (r.text.prefix == "" <==> !r.isPositive)
  {
    match value
    case None => Percent(Literal(Dash), false, false)
    case Some(v) => Percent(Fixed(if v > 0.0 then "+" else "", v, 1, "%"), v > 0.0, v < 0.0)
  }

  /** `formatNumber`: "0" when falsy, then M and K with one decimal, otherwise a whole number. */
  function FormatNumber(value: Option<real>): (r: Rendering)
    ensures Falsy(value) <==> r == Literal("0")
    ensures !Falsy(value) ==> r.Fixed? && r.prefix == ""
    ensures r.Fixed? ==> r.value * SuffixScale(r.suffix) == value.value
    ensures r.Fixed? && r.suffix != "" ==> r.value >= 1.0 && r.decimals == 1
    ensures r.Fixed? && r.suffix != "M" ==> r.value < 1000.0
    ensures r.Fixed? ==> r.suffix in {"", "K", "M"}
    ensures r.Fixed? && r.suffix == "" ==> r.decimals == 0
  {
    if Falsy(value) then Literal("0")
    else
      var v := value.value;
      if v >= 1_000_000.0 then Fixed("", v / 1_000_000.0, 1, "M")
      else if v >= 1_000.0 then Fixed("", v / 1_000.0, 1, "K")
      else Fixed("", v, 0, "")
  }

  /** A smaller positive price is never shown with fewer decimals, and exponent notation, once
      reached, holds for every smaller positive price. */
  lemma PriceDecimalsGrowAsPriceFalls(a: real, b: real)
    requires 0.0 < a <= b
    ensures FormatPrice(Some(b)).Exponential? ==> FormatPrice(Some(a)).Exponential?
    ensures FormatPrice(Some(a)).Fixed? && FormatPrice(Some(b)).Fixed? ==>
      FormatPrice(Some(b)).decimals <= FormatPrice(Some(a)).decimals
    ensures FormatPrice(Some(a)).Grouped? ==> FormatPrice(Some(b)).Grouped?
  {
  }

  /** A larger positive amount never gets a smaller suffix. */
  lemma BigNumberSuffixGrows(a: real, b: real)
    requires 0.0 < a <= b
    ensures SuffixScale(FormatBigNumber(Some(a)).suffix) <= SuffixScale(FormatBigNumber(Some(b)).suffix)
  {
  }

  /** A larger positive count never gets a smaller suffix. */
  lemma NumberSuffixGrows(a: real, b: real)
    requires 0.0 < a <= b
    ensures SuffixScale(FormatNumber(Some(a)).suffix) <= SuffixScale(FormatNumber(Some(b)).suffix)
  {
  }

  /** The unit `formatAge` counts in, and its length in milliseconds. */
  datatype AgeUnit = Minutes | Hours | Days | Months

  function UnitMs(u: AgeUnit): int
  {
    match u
    case Minutes => 60_000
    case Hours => 3_600_000
    case Days => 86_400_000
    case Months => 2_592_000_000
  }

  /** "?" or a whole number of units followed by m, h, d or mo. */
  datatype Age = Unknown | Ago(count: int, unit: AgeUnit)

  /** `formatAge` with the clock passed in: the largest unit (up to 30-day months) of which at
      least one has elapsed, and the number of whole such units elapsed since `createdAt`. */
  function FormatAge(createdAt: Option<int>, now: int): (r: Age)
    ensures createdAt.None? || createdAt.value == 0 <==> r == Unknown
    ensures r.Ago? ==> var diff := now - createdAt.value;
      && r.count * UnitMs(r.unit) <= diff < (r.count + 1) * UnitMs(r.unit)
      && (r.unit == Minutes <==> diff < 3_600_000)
      && (r.unit == Hours ==> 1 <= r.count < 24)
      && (r.unit == Days ==> 1 <= r.count < 30)
      && (r.unit == Months ==> 1 <= r.count)
  {
    if createdAt.None? || createdAt.value == 0 then Unknown
    else
      var diff := now - createdAt.value;
      var minutes := diff / 60_000;
      if minutes < 60 then Ago(minutes, Minutes)
      else
        var hours := minutes / 60;
        if hours < 24 then Ago(hours, Hours)
        else
          var days := hours / 24;
          if days < 30 then Ago(days, Days)
          else Ago(days / 30, Months)
  }
}
