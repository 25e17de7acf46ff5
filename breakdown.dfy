/**
 * The cost breakdown: the clamped prediction is spread over the features in
 * proportion to the model's normalised feature importances, one row per
 * feature, followed by a total row that carries the prediction itself.
 */
module Breakdown {
  import opened Wrappers
  import opened Text

  /** The value cell of a row: the submitted number, or the empty string of the total row. */
  datatype Cell = Number(x: real) | Blank

  /** One row of the breakdown table: (label, value, cost). */
  datatype Row = Row(name: string, value: Cell, cost: real)

  /** A cost cannot be negative: a negative prediction is replaced by 0. */
  function Clamp(p: real): (r: real)
    ensures r >= 0.0
    ensures p >= 0.0 ==> r == p
    ensures p < 0.0 ==> r == 0.0
  {
    if p < 0.0 then 0.0 else p
  }

  /** Python's `sum`: adds left to right, starting from 0. */
  function Sum(s: seq<real>): real
  {
    if s == [] then 0.0 else Sum(s[..|s| - 1]) + s[|s| - 1]
  }

  /** Scaling every term scales the sum. */
  lemma {:induction false} SumScaled(s: seq<real>, t: seq<real>, c: real)
    requires |t| == |s|
    requires forall i :: 0 <= i < |s| ==> t[i] == s[i] * c
    ensures Sum(t) == Sum(s) * c
    decreases |s|
  {
    if s != [] {
      var k := |s| - 1;
      SumScaled(s[..k], t[..k], c);
    }
  }

  /** A sum of non-negative terms is non-negative and bounds each term. */
  lemma {:induction false} SumOfNonNegative(s: seq<real>)
    requires forall i :: 0 <= i < |s| ==> s[i] >= 0.0
    ensures Sum(s) >= 0.0
    ensures forall i :: 0 <= i < |s| ==> s[i] <= Sum(s)
    decreases |s|
  {
    if s != [] {
      SumOfNonNegative(s[..|s| - 1]);
    }
  }

  /**
   * `[importance / total_importance for importance in feature_importances]`
   * with `total_importance = sum(feature_importances)`; `None` where a
   * division by a zero total would take place.
   */
  function Normalize(importances: seq<real>): (r: Option<seq<real>>)
    ensures r.None? <==> |importances| > 0 && Sum(importances) == 0.0
    ensures r.Some? ==> |r.value| == |importances|
    ensures r.Some? ==> forall i :: 0 <= i < |importances| ==> r.value[i] * Sum(importances) == importances[i]
  {
    var total := Sum(importances);
    if |importances| > 0 && total == 0.0 then None
    else Some(seq(|importances|, i requires 0 <= i < |importances| => importances[i] / total))
  }

  /** Normalised importances total exactly 1. */
  lemma NormalizedSumIsOne(importances: seq<real>)
    requires |importances| > 0 && Normalize(importances).Some?
    ensures Sum(Normalize(importances).value) == 1.0
  {
    var total := Sum(importances);
    var n := Normalize(importances).value;
    forall i | 0 <= i < |importances|
      ensures n[i] == importances[i] * (1.0 / total)
    {
    }
    SumScaled(importances, n, 1.0 / total);
  }

  /** Non-negative importances normalise to weights between 0 and 1. */
  lemma NormalizedAreWeights(importances: seq<real>)
    requires forall i :: 0 <= i < |importances| ==> importances[i] >= 0.0
    requires Normalize(importances).Some?
    ensures forall i :: 0 <= i < |importances| ==> 0.0 <= Normalize(importances).value[i] <= 1.0
  {
    SumOfNonNegative(importances);
    var total := Sum(importances);
    forall i | 0 <= i < |importances|
      ensures 0.0 <= Normalize(importances).value[i] <= 1.0
    {
      assert total > 0.0;
      assert Normalize(importances).value[i] == importances[i] / total;
      assert importances[i] <= total;
    }
  }

  /** The row of feature `i`: its label, its submitted value and its share of the prediction. */
  function FeatureRow(features: seq<string>, values: seq<real>, normalized: seq<real>, predicted: real, i: nat): Row
    requires |values| == |features| <= |normalized| && i < |features|
  {
    Row(Label(features[i]), Number(values[i]), normalized[i] * predicted)
  }

  /** The feature rows, in feature order. */
  function FeatureRows(features: seq<string>, values: seq<real>, normalized: seq<real>, predicted: real): (rows: seq<Row>)
    requires |values| == |features| <= |normalized|
  {
    seq(|features|, i requires 0 <= i < |features| => FeatureRow(features, values, normalized, predicted, i))
  }

  /** The total row: empty value, and the prediction as its cost. */
  function TotalRow(predicted: real): Row
  {
    Row("Total", Blank, predicted)
  }

  /**
   * The finished table: row `i` is feature `i`'s label, value and share of
   * the prediction, and one total row follows carrying the prediction.
   */
  function BreakdownTable(features: seq<string>, values: seq<real>, normalized: seq<real>, predicted: real): (r: seq<Row>)
    requires |values| == |features| <= |normalized|
    ensures |r| == |features| + 1
    ensures forall i :: 0 <= i < |features| ==>
      r[i].name == Label(features[i]) && r[i].value == Number(values[i]) && r[i].cost == normalized[i] * predicted
    ensures r[|features|] == Row("Total", Blank, predicted)
  {
    FeatureRows(features, values, normalized, predicted) + [TotalRow(predicted)]
  }

  function Costs(rows: seq<Row>): seq<real>
  {
    seq(|rows|, i requires 0 <= i < |rows| => rows[i].cost)
  }

  lemma SumOfCostsAppend(rows: seq<Row>, row: Row)
    ensures Sum(Costs(rows + [row])) == Sum(Costs(rows)) + row.cost
  {
    assert Costs(rows + [row])[..|rows|] == Costs(rows);
  }

  /** `table[-1] = row`: the last entry is replaced and every earlier one is kept. */
  function ReplaceLast(table: seq<Row>, row: Row): (r: seq<Row>)
    requires |table| > 0
    ensures |r| == |table|
    ensures r[..|table| - 1] == table[..|table| - 1]
    ensures r[|table| - 1] == row
  {
    table[|table| - 1 := row]
  }

  /**
   * The breakdown loop: append one row per feature while accumulating the
   * allocated costs, append a total row with that accumulated sum, then
   * overwrite the total row with the prediction. `accumulated` is the sum
   * the total row held before it was overwritten.
   */
  method BuildBreakdown(features: seq<string>, values: seq<real>, normalized: seq<real>, predicted: real)
    returns (table: seq<Row>, accumulated: real)
    requires |values| == |features| <= |normalized|
    ensures table == BreakdownTable(features, values, normalized, predicted)
    ensures accumulated == Sum(Costs(FeatureRows(features, values, normalized, predicted)))
  {
    ghost var rows := FeatureRows(features, values, normalized, predicted);
    ghost var spec := BreakdownTable(features, values, normalized, predicted);
    assert spec == rows + [TotalRow(predicted)];
    table := [];
    var totalCost := 0.0;
    var i := 0;
    while i < |features|
      invariant 0 <= i <= |features|
      invariant table == rows[..i]
      invariant totalCost == Sum(Costs(table))
    {
      var featureCost := normalized[i] * predicted;
      var row := Row(Label(features[i]), Number(values[i]), featureCost);
      assert row == rows[i];
      assert rows[..i + 1] == rows[..i] + [rows[i]];
      SumOfCostsAppend(table, row);
      table := table + [row];
      totalCost := totalCost + featureCost;
      i := i + 1;
    }
    assert table == rows;
    table := table + [Row("Total", Blank, totalCost)];
    accumulated := totalCost;
    table := ReplaceLast(table, TotalRow(predicted));
  }

  /**
   * With one importance per feature, the allocated costs add up to the
   * prediction: over exact arithmetic the overwrite of the total row does
   * not change its cost.
   */
  lemma AllocationsTotalPrediction(features: seq<string>, values: seq<real>, importances: seq<real>, predicted: real)
    requires |values| == |features| == |importances| > 0
    requires Normalize(importances).Some?
    ensures Sum(Costs(FeatureRows(features, values, Normalize(importances).value, predicted))) == predicted
  {
    var n := Normalize(importances).value;
    var costs := Costs(FeatureRows(features, values, n, predicted));
    SumScaled(n, costs, predicted);
    NormalizedSumIsOne(importances);
  }

  /** Non-negative importances and a clamped prediction allocate no negative cost. */
  lemma AllocationsNonNegative(features: seq<string>, values: seq<real>, importances: seq<real>, predicted: real)
    requires |values| == |features| <= |importances|
    requires forall i :: 0 <= i < |importances| ==> importances[i] >= 0.0
    requires Normalize(importances).Some?
    ensures forall r :: r in BreakdownTable(features, values, Normalize(importances).value, Clamp(predicted)) ==> r.cost >= 0.0
  {
    NormalizedAreWeights(importances);
  }
}
