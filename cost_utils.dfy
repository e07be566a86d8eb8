/**
 * The low/base/high cost table: margin rows become a pair of functions per label, and each
 * cost label gets its base value with the low and high estimates around it.
 */
module CostUtils {
  import opened Wrappers

  /** One margin row: whether `lower`/`higher` are rates (multiplied) or offsets (added). */
  datatype MarginRow = MarginRow(name: string, rateOrFloat: bool, lower: real, higher: real)

  /** One row of the margin-function table. */
  datatype MarginEntry = MarginEntry(name: string, low: real -> real, high: real -> real)

  /** One row of the cost table. */
  datatype CostRow = CostRow(name: string, low: real, base: real, high: real)

  /** Some label occurs on two different rows. */
  predicate HasRepeatedLabel(mar: seq<MarginRow>)
  {
    exists i, j :: 0 <= i < j < |mar| && mar[i].name == mar[j].name
  }

  /**
   * The function a margin row gets for `bound`.  The source's lambdas read the loop variable
   * when they are called, after the loop, so the bound is the LAST row's, applied in the way
   * (rate or offset) of the row the function belongs to.
   */
  function MarginApplied(row: MarginRow, last: MarginRow, high: bool, x: real): real
  {
    var bound := if high then last.higher else last.lower;
    if row.rateOrFloat then x * bound else x + bound
  }

  /**
   * `populate_margin_functions`: one entry per margin row, in row order.  A repeated label makes
   * the per-cell lookup return several values, whose truth test raises ValueError.
   */
  method PopulateMarginFunctions(mar: seq<MarginRow>) returns (r: Result<seq<MarginEntry>>)
    ensures r.Err? <==> HasRepeatedLabel(mar)
    ensures r.Err? ==> r.error == ValueError
    ensures r.Ok? ==> |r.value| == |mar|
    ensures r.Ok? ==> forall i :: 0 <= i < |mar| ==> r.value[i].name == mar[i].name
    ensures r.Ok? ==> forall i, x :: 0 <= i < |mar| ==>
              r.value[i].low(x) == MarginApplied(mar[i], mar[|mar| - 1], false, x) &&
              r.value[i].high(x) == MarginApplied(mar[i], mar[|mar| - 1], true, x)
  {
    if HasRepeatedLabel(mar) {
      return Err(ValueError);
    }
    var df: seq<MarginEntry> := [];
    if |mar| == 0 {
      return Ok(df);
    }
    var last := mar[|mar| - 1];
    var i := 0;
    while i < |mar|
      invariant 0 <= i <= |mar|
      invariant |df| == i
      invariant forall k :: 0 <= k < i ==> df[k].name == mar[k].name
      invariant forall k, x :: 0 <= k < i ==>
                  df[k].low(x) == MarginApplied(mar[k], last, false, x) &&
                  df[k].high(x) == MarginApplied(mar[k], last, true, x)
    {
      var row := mar[i];
      var low: real -> real;
      var high: real -> real;
      if row.rateOrFloat {
        low := (x: real) => x * last.lower;
        high := (x: real) => x * last.higher;
      } else {
        low := (x: real) => x + last.lower;
        high := (x: real) => x + last.higher;
      }
      df := df + [MarginEntry(row.name, low, high)];
      i := i + 1;
    }
    return Ok(df);
  }

  /** The first margin entry labelled `name`, if any. */
  function FindMargin(margins: seq<MarginEntry>, name: string): (m: Option<MarginEntry>)
    ensures m.None? <==> forall i :: 0 <= i < |margins| ==> margins[i].name != name
    ensures m.Some? ==> exists i :: 0 <= i < |margins| && margins[i] == m.value && m.value.name == name
  {
    if margins == [] then None
    else if margins[0].name == name then Some(margins[0])
    else
      var m := FindMargin(margins[1..], name);
      assert forall i :: 1 <= i < |margins| ==> margins[i] == margins[1..][i - 1];
      m
  }

  /** The row `calculate_costs_with_df` writes for one label. */
  function CostOf(baseValues: map<string, real>, margins: seq<MarginEntry>, name: string): (c: CostRow)
    ensures c.name == name
    ensures c.base == (if name in baseValues then baseValues[name] else 0.0)
    ensures FindMargin(margins, name).None? ==> c.low == c.base == c.high
    ensures FindMargin(margins, name).Some? ==>
              c.low == FindMargin(margins, name).value.low(c.base) &&
              c.high == FindMargin(margins, name).value.high(c.base)
  {
    var base := if name in baseValues then baseValues[name] else 0.0;
    match FindMargin(margins, name)
    case None => CostRow(name, base, base, base)
    case Some(m) => CostRow(name, m.low(base), base, m.high(base))
  }

  /** Two margin entries carry the label `name`. */
  predicate MarginLabelRepeated(margins: seq<MarginEntry>, name: string)
  {
    exists i, j :: 0 <= i < j < |margins| && margins[i].name == name && margins[j].name == name
  }

  /**
   * `calculate_costs_with_df`: one row per index label, in order; the base value is the label's
   * own (0 when it has none), and the margin functions give low and high when the label has them.
   * A label that labels two margin rows reads a column of functions rather than one, and calling
   * it raises TypeError.
   */
  method CalculateCostsWithDf(baseValues: map<string, real>, margins: seq<MarginEntry>, indexLabels: seq<string>)
    returns (r: Result<seq<CostRow>>)
    ensures r.Err? <==> exists i :: 0 <= i < |indexLabels| && MarginLabelRepeated(margins, indexLabels[i])
    ensures r.Err? ==> r.error == TypeError
    ensures r.Ok? ==> |r.value| == |indexLabels|
    ensures r.Ok? ==> forall i :: 0 <= i < |indexLabels| ==> r.value[i] == CostOf(baseValues, margins, indexLabels[i])
  {
    var df := [];
    for i := 0 to |indexLabels|
      invariant |df| == i
      invariant forall k :: 0 <= k < i ==> !MarginLabelRepeated(margins, indexLabels[k])
      invariant forall k :: 0 <= k < i ==> df[k] == CostOf(baseValues, margins, indexLabels[k])
    {
      var name := indexLabels[i];
      var baseValue := if name in baseValues then baseValues[name] else 0.0;
      var m := FindMargin(margins, name);
      if m.Some? {
        if MarginLabelRepeated(margins, name) {
          return Err(TypeError);
        }
        df := df + [CostRow(name, m.value.low(baseValue), baseValue, m.value.high(baseValue))];
      } else {
        df := df + [CostRow(name, baseValue, baseValue, baseValue)];
      }
    }
    return Ok(df);
  }

  /** The entries `populate_margin_functions` builds never label two rows alike. */
  lemma PopulatedMarginsAreUnique(mar: seq<MarginRow>, entries: seq<MarginEntry>, name: string)
    requires !HasRepeatedLabel(mar)
    requires |entries| == |mar|
    requires forall k :: 0 <= k < |mar| ==> entries[k].name == mar[k].name
    ensures !MarginLabelRepeated(entries, name)
  {
    forall i, j | 0 <= i < j < |entries|
      ensures entries[i].name != name || entries[j].name != name
    {
      assert entries[i].name == mar[i].name && entries[j].name == mar[j].name;
    }
  }

  /**
   * Chaining the two helpers on distinct labels: a label with a margin row gets the last row's
   * bounds, multiplied into or added to its base by its own row's kind; other labels get the
   * base three times.
   */
  lemma {:induction false} CostsFromPopulatedMargins(baseValues: map<string, real>, mar: seq<MarginRow>,
                                                     entries: seq<MarginEntry>, name: string, i: nat)
    requires !HasRepeatedLabel(mar)
    requires |entries| == |mar|
    requires forall k :: 0 <= k < |mar| ==> entries[k].name == mar[k].name
    requires forall k, x :: 0 <= k < |mar| ==>
               entries[k].low(x) == MarginApplied(mar[k], mar[|mar| - 1], false, x) &&
               entries[k].high(x) == MarginApplied(mar[k], mar[|mar| - 1], true, x)
    requires i < |mar| && mar[i].name == name
    ensures var c := CostOf(baseValues, entries, name);
            c.low == MarginApplied(mar[i], mar[|mar| - 1], false, c.base) &&
            c.high == MarginApplied(mar[i], mar[|mar| - 1], true, c.base)
  {
    var m := FindMargin(entries, name);
    assert entries[i].name == name;
    var k :| 0 <= k < |entries| && entries[k] == m.value && m.value.name == name;
    assert mar[k].name == name;
    assert k == i;
  }
}
