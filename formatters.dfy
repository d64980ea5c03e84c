/** `frontend/src/types/formatters.ts`: the change between two figures and the choice of
    notation when figures are displayed. Numbers are the reals they denote; `toFixed` and
    `Intl.NumberFormat` are parameters. */
module Formatters {
  import opened Base
  import opened Strings

  datatype Delta = Delta(value: real, percentage: real, isPositive: bool)

  /** `calculateDelta(current, previous)` */
  function CalculateDelta(current: real, previous: real): (d: Delta)
    ensures previous + d.value == current
    ensures d.isPositive <==> current >= previous
    ensures previous == 0.0 ==> d.percentage == 0.0
    ensures previous != 0.0 ==> d.percentage * previous == 100.0 * d.value
  {
    var delta := current - previous;
    Delta(delta, if previous != 0.0 then (delta / previous) * 100.0 else 0.0, delta >= 0.0)
  }

  /** Against a positive base the percentage has the sign `isPositive` reports, and equal
      figures count as a positive change of 0 per cent. */
  lemma PercentageSignOnPositiveBase(current: real, previous: real)
    requires previous > 0.0
    ensures var d := CalculateDelta(current, previous);
            && (d.percentage >= 0.0 <==> d.isPositive)
            && (current == previous ==> d.isPositive && d.percentage == 0.0)
  {
    var d := CalculateDelta(current, previous);
    assert d.percentage * previous == 100.0 * d.value;
    if d.percentage >= 0.0 {
      assert d.value >= 0.0;
    }
  }

  /** Against a negative base the percentage has the opposite sign: a rise from -100 to -50
      is reported as positive with -50 per cent. */
  lemma PercentageSignOnNegativeBase(current: real, previous: real)
    requires previous < 0.0 && current != previous
    ensures var d := CalculateDelta(current, previous);
            d.percentage > 0.0 <==> !d.isPositive
  {
    var d := CalculateDelta(current, previous);
    assert d.percentage * previous == 100.0 * d.value;
    if d.percentage > 0.0 {
      assert d.percentage * previous < 0.0;
    }
    if !d.isPositive {
      assert d.value < 0.0;
    }
  }

  /** `formatPercent(value, decimals)`, `toFixed` rendering `value.toFixed(decimals)`. */
  function FormatPercent(value: real, decimals: Option<nat>, toFixed: (real, nat) -> string): (r: string)
    ensures var places := if decimals.Some? then decimals.value else 1;
            && EndsWith(r, "%")
            && r[..|r| - 1] == toFixed(value, places)
  {
    var places := if decimals.Some? then decimals.value else 1;
    toFixed(value, places) + "%"
  }

  /** `compact && Math.abs(value) >= 1000` */
  predicate UsesCompact(value: real, compact: bool) {
    compact && (if value < 0.0 then -value else value) >= 1000.0
  }

  /** The `Intl.NumberFormat` options the formatters choose between. */
  datatype Notation =
    | CompactCurrency(currency: string)
    | WholeCurrency(currency: string)
    | CompactNumber
    | PlainNumber

  /** The formatter `formatCurrency(value, currency, compact)` builds; `currency` and
      `compact` are `None` when left out ('INR' and true). */
  function CurrencyNotation(value: real, currency: Option<string>, compact: Option<bool>): (n: Notation)
    ensures var cur := if currency.Some? then currency.value else "INR";
            var c := if compact.Some? then compact.value else true;
            && (n.CompactCurrency? <==> UsesCompact(value, c))
            && (n.CompactCurrency? || n.WholeCurrency?)
            && (n.CompactCurrency? ==> n.currency == cur)
            && (n.WholeCurrency? ==> n.currency == cur)
  {
    var cur := if currency.Some? then currency.value else "INR";
    var c := if compact.Some? then compact.value else true;
    if UsesCompact(value, c) then CompactCurrency(cur) else WholeCurrency(cur)
  }

  /** The formatter `formatNumber(value, compact)` builds. */
  function NumberNotation(value: real, compact: Option<bool>): (n: Notation)
    ensures var c := if compact.Some? then compact.value else true;
            && (n == CompactNumber <==> UsesCompact(value, c))
            && (n == CompactNumber || n == PlainNumber)
  {
    var c := if compact.Some? then compact.value else true;
    if UsesCompact(value, c) then CompactNumber else PlainNumber
  }

  /** `formatCurrency` and `formatNumber` switch to compact notation at the same figures,
      for gains and losses alike, and never below 1000 in magnitude. */
  lemma CompactThreshold(value: real, compact: Option<bool>)
    ensures CurrencyNotation(value, None, compact).CompactCurrency? <==> NumberNotation(value, compact) == CompactNumber
    ensures NumberNotation(value, compact) == NumberNotation(-value, compact)
    ensures -1000.0 < value < 1000.0 ==> NumberNotation(value, compact) == PlainNumber
    ensures NumberNotation(value, Some(false)) == PlainNumber
    ensures value >= 1000.0 ==> NumberNotation(value, None) == CompactNumber
  {
  }
}
