/**
 * The prediction request: the nine features, their ranges, and the handler
 * that parses a submitted form, validates it, asks the trained model for a
 * prediction and builds the cost breakdown.
 */
module Estimation {
  import opened Wrappers
  import opened Text
  import opened Validation
  import opened Breakdown

  /** The model's input columns, in training order. */
  const Features: seq<string> := [
    "Project_Size",
    "Project_Duration",
    "Team_Size",
    "Complexity",
    "Reliability",
    "Database_Size",
    "Team_Cohesion",
    "Developer_Experience",
    "Software_Tools"
  ]

  /** The closed range every feature value must lie in. */
  const InputRanges: map<string, Range> := map[
    "Project_Size" := Range(500, 5000),
    "Project_Duration" := Range(3, 24),
    "Team_Size" := Range(3, 20),
    "Complexity" := Range(1, 10),
    "Reliability" := Range(1, 5),
    "Database_Size" := Range(100, 1000),
    "Team_Cohesion" := Range(1, 5),
    "Developer_Experience" := Range(1, 5),
    "Software_Tools" := Range(1, 5)
  ]

  /** What `float(...)` makes of one submitted form field. */
  datatype Field = Numeric(x: real) | NotNumeric

  /** Why a request failed other than by an out-of-range value. */
  datatype Failure =
    | MissingField(field: string)   // the form lacks the field
    | NotANumber(field: string)     // the field does not parse as a number
    | ZeroImportanceSum             // the importances total zero
    | MissingImportance             // fewer importances than features

  /** The trained regressor as the handler sees it: a prediction per input row, and its importances. */
  datatype Estimator = Estimator(predict: seq<real> -> real, importances: seq<real>)

  /** What the predict endpoint answers. */
  datatype Response =
    | Estimate(cost: real, table: seq<Row>)
    | Rejected(message: string)
    | Failed(failure: Failure)

  predicate FieldOk(form: map<string, Field>, name: string)
  {
    name in form && form[name].Numeric?
  }

  function FieldFailure(form: map<string, Field>, name: string): Failure
    requires !FieldOk(form, name)
  {
    if name !in form then MissingField(name) else NotANumber(name)
  }

  /** Field `k` is the first, in feature order, that is missing or not a number. */
  predicate FirstFailingField(features: seq<string>, form: map<string, Field>, k: int)
  {
    0 <= k < |features| && !FieldOk(form, features[k]) &&
    forall j :: 0 <= j < k ==> FieldOk(form, features[j])
  }

  /**
   * `{feature: float(request.form[feature]) for feature in features}`: the
   * values in feature order, or the failure of the first field that is
   * missing or not a number.
   */
  function ParseInputs(features: seq<string>, form: map<string, Field>): (r: Result<seq<real>, Failure>)
    ensures r.Ok? <==> forall i :: 0 <= i < |features| ==> FieldOk(form, features[i])
    ensures r.Ok? ==> |r.value| == |features|
    ensures r.Ok? ==> forall i :: 0 <= i < |features| ==> FieldOk(form, features[i]) && r.value[i] == form[features[i]].x
    ensures r.Err? ==> exists k :: FirstFailingField(features, form, k) && r.error == FieldFailure(form, features[k])
    decreases |features|
  {
    if features == [] then Ok([])
    else
      var k := |features| - 1;
      var front := ParseInputs(features[..k], form);
      assert forall j :: 0 <= j < k ==> features[..k][j] == features[j];
      if front.Err? then
        var w :| FirstFailingField(features[..k], form, w) && front.error == FieldFailure(form, features[..k][w]);
        assert FirstFailingField(features, form, w);
        front
      else if !FieldOk(form, features[k]) then
        assert FirstFailingField(features, form, k);
        Err(FieldFailure(form, features[k]))
      else Ok(front.value + [form[features[k]].x])
  }

  /** The feature table is consistent: nine distinct names, each with a non-empty range. */
  lemma SchemaWellFormed()
    ensures |Features| == 9
    ensures Covers(Features, InputRanges)
    ensures forall f :: f in InputRanges <==> f in Features
    ensures forall i, j :: 0 <= i < j < |Features| ==> Features[i] != Features[j]
    ensures forall f :: f in InputRanges ==> InputRanges[f].lo <= InputRanges[f].hi
  {
  }

  /**
   * What the answer to an accepted request shows: the nine feature rows and
   * the total row carrying the clamped prediction, the feature costs totalling
   * it, and no negative cost when the importances are non-negative.
   */
  lemma EstimateShape(values: seq<real>, importances: seq<real>, cost: real)
    requires |values| == |Features| <= |importances|
    requires Normalize(importances).Some?
    requires cost >= 0.0
    ensures var table := BreakdownTable(Features, values, Normalize(importances).value, cost);
      |table| == |Features| + 1 && table[|Features|] == TotalRow(cost) &&
      (|importances| == |Features| ==> Sum(Costs(table[..|Features|])) == cost) &&
      ((forall i :: 0 <= i < |importances| ==> importances[i] >= 0.0) ==> forall row :: row in table ==> row.cost >= 0.0)
  {
    var normalized := Normalize(importances).value;
    var table := BreakdownTable(Features, values, normalized, cost);
    assert table[..|Features|] == FeatureRows(Features, values, normalized, cost);
    if |importances| == |Features| {
      AllocationsTotalPrediction(Features, values, importances, cost);
    }
    if forall i :: 0 <= i < |importances| ==> importances[i] >= 0.0 {
      AllocationsNonNegative(Features, values, importances, cost);
    }
  }

  /**
   * The predict endpoint. A parse failure or an out-of-range value answers
   * before the model is consulted; otherwise the answer is the clamped
   * prediction with its breakdown, whose last row carries that prediction.
   */
  method Predict(form: map<string, Field>, model: Estimator) returns (resp: Response)
    ensures ParseInputs(Features, form).Err? ==> resp == Failed(ParseInputs(Features, form).error)
    ensures ParseInputs(Features, form).Ok? ==>
      var values := ParseInputs(Features, form).value;
      var bad := FirstOutOfRange(Features, InputRanges, values);
      var cost := Clamp(model.predict(values));
      var weights := Normalize(model.importances);
      if bad.Some? then
        var name := Features[bad.value];
        resp == Rejected(RangeMessage(name, InputRanges[name])) &&
        ParseRangeMessage(resp.message) == Some((Spaced(name), InputRanges[name]))
      else if |model.importances| < |Features| then resp == Failed(MissingImportance)
      else if weights.None? then resp == Failed(ZeroImportanceSum)
      else resp == Estimate(cost, BreakdownTable(Features, values, weights.value, cost))
    ensures resp.Estimate? ==>
      resp.cost >= 0.0 && |resp.table| == |Features| + 1 && resp.table[|Features|] == TotalRow(resp.cost)
    ensures resp.Estimate? && |model.importances| == |Features| ==>
      Sum(Costs(resp.table[..|Features|])) == resp.cost
    ensures resp.Estimate? && (forall i :: 0 <= i < |model.importances| ==> model.importances[i] >= 0.0) ==>
      forall row :: row in resp.table ==> row.cost >= 0.0
  {
    SchemaWellFormed();
    var parsed := ParseInputs(Features, form);
    if parsed.Err? {
      return Failed(parsed.error);
    }
    var inputs := parsed.value;
    var bad := Validate(Features, InputRanges, inputs);
    if bad.Some? {
      var name := Features[bad.value];
      return Rejected(RangeMessage(name, InputRanges[name]));
    }
    var predictedCost := model.predict(inputs);
    if predictedCost < 0.0 {
      predictedCost := 0.0;
    }
    var normalized := Normalize(model.importances);
    if |model.importances| < |Features| {
      return Failed(MissingImportance);
    }
    if normalized.None? {
      return Failed(ZeroImportanceSum);
    }
    var table, accumulated := BuildBreakdown(Features, inputs, normalized.value, predictedCost);
    EstimateShape(inputs, model.importances, predictedCost);
    return Estimate(predictedCost, table);
  }

  /** The request of the worked example lies in every range and is accepted. */
  lemma ExampleRequestAccepted()
    ensures FirstOutOfRange(Features, InputRanges, [2000.0, 12.0, 8.0, 5.0, 3.0, 500.0, 3.0, 3.0, 3.0]) == None
  {
    var values := [2000.0, 12.0, 8.0, 5.0, 3.0, 500.0, 3.0, 3.0, 3.0];
    assert Accepted(Features, InputRanges, values, 0);
    assert Accepted(Features, InputRanges, values, 1);
    assert Accepted(Features, InputRanges, values, 2);
    assert Accepted(Features, InputRanges, values, 3);
    assert Accepted(Features, InputRanges, values, 4);
    assert Accepted(Features, InputRanges, values, 5);
    assert Accepted(Features, InputRanges, values, 6);
    assert Accepted(Features, InputRanges, values, 7);
    assert Accepted(Features, InputRanges, values, 8);
  }

  /** Bounds are inclusive: a request with every value at its lower bound is accepted. */
  lemma LowerBoundsAccepted()
    ensures FirstOutOfRange(Features, InputRanges, [500.0, 3.0, 3.0, 1.0, 1.0, 100.0, 1.0, 1.0, 1.0]) == None
  {
    var values := [500.0, 3.0, 3.0, 1.0, 1.0, 100.0, 1.0, 1.0, 1.0];
    assert Accepted(Features, InputRanges, values, 0);
    assert Accepted(Features, InputRanges, values, 1);
    assert Accepted(Features, InputRanges, values, 2);
    assert Accepted(Features, InputRanges, values, 3);
    assert Accepted(Features, InputRanges, values, 4);
    assert Accepted(Features, InputRanges, values, 5);
    assert Accepted(Features, InputRanges, values, 6);
    assert Accepted(Features, InputRanges, values, 7);
    assert Accepted(Features, InputRanges, values, 8);
  }

  /** Bounds are inclusive: a request with every value at its upper bound is accepted. */
  lemma UpperBoundsAccepted()
    ensures FirstOutOfRange(Features, InputRanges, [5000.0, 24.0, 20.0, 10.0, 5.0, 1000.0, 5.0, 5.0, 5.0]) == None
  {
    var values := [5000.0, 24.0, 20.0, 10.0, 5.0, 1000.0, 5.0, 5.0, 5.0];
    assert Accepted(Features, InputRanges, values, 0);
    assert Accepted(Features, InputRanges, values, 1);
    assert Accepted(Features, InputRanges, values, 2);
    assert Accepted(Features, InputRanges, values, 3);
    assert Accepted(Features, InputRanges, values, 4);
    assert Accepted(Features, InputRanges, values, 5);
    assert Accepted(Features, InputRanges, values, 6);
    assert Accepted(Features, InputRanges, values, 7);
    assert Accepted(Features, InputRanges, values, 8);
  }

  /** With two values out of range, the earlier feature is the one reported. */
  lemma FirstBadFeatureReported()
    ensures FirstOutOfRange(Features, InputRanges, [2000.0, 12.0, 21.0, 5.0, 3.0, 50.0, 3.0, 3.0, 3.0]) == Some(2)
  {
    var values := [2000.0, 12.0, 21.0, 5.0, 3.0, 50.0, 3.0, 3.0, 3.0];
    assert Accepted(Features, InputRanges, values, 0);
    assert Accepted(Features, InputRanges, values, 1);
    assert !Accepted(Features, InputRanges, values, 2);
  }
}
