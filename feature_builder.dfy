/** The fixed-order feature contract shared by training and inference
    (backend/ml/feature_builder.py): which names each model expects, the
    "report every missing name" checks, and the assembly of feature vectors and
    training matrices. Fitting and saving the scaler is left out; an existing
    scaler's `transform` is a parameter that may fail. */
module FeatureBuilder {
  import opened Python

  /** The inputs of the trip-feasibility model, in order. */
  const TripFeatures: seq<string> := ["start_soc", "route_distance_km", "avg_speed_kmph", "passenger_load"]

  /** The inputs of the battery-health model, in order. */
  const SohFeatures: seq<string> := ["battery_cycles", "avg_depth_of_discharge", "temperature_variance"]

  const TripTarget: string := "energy_consumed_pct"
  const SohTarget: string := "soh"

  /** scaler.transform applied to one row; None when it raises. */
  type Transform = seq<real> -> Option<seq<real>>

  /** A table: its column names and its rows, each row a record holding every column. */
  datatype Frame = Frame(columns: seq<string>, rows: seq<Record>)

  predicate WellFormed(f: Frame)
  {
    forall i :: 0 <= i < |f.rows| ==> forall c :: c in f.columns ==> c in f.rows[i]
  }

  /** d[k] exists and float(d[k]) does not raise. */
  predicate Convertible(d: Record, k: string)
  {
    k in d && ToFloat(d[k]).Some?
  }

  /** float(d[k]) where it does not raise. */
  function FloatAt(d: Record, k: string): real
    requires Convertible(d, k)
  {
    ToFloat(d[k]).value
  }

  /** The exception float(d[k]) raises when it is not convertible. */
  function FaultAt(d: Record, k: string): Fault
  {
    if k !in d then KeyMissing(k) else NotNumeric(k)
  }

  /** The first key of keys that is absent from d or not a number; |keys| when none. */
  function FirstInconvertible(d: Record, keys: seq<string>): (k: nat)
    ensures k <= |keys|
    ensures forall j :: 0 <= j < k ==> Convertible(d, keys[j])
    ensures k < |keys| ==> !Convertible(d, keys[k])
  {
    if keys == [] then 0
    else if !Convertible(d, keys[0]) then 0
    else 1 + FirstInconvertible(d, keys[1..])
  }

  /** [float(d[k]) for k in keys], evaluated left to right: the first key that is
      absent or not a number raises. */
  function Floats(d: Record, keys: seq<string>): (r: Result<seq<real>, Fault>)
    ensures r.Ok? <==> forall i :: 0 <= i < |keys| ==> Convertible(d, keys[i])
    ensures r.Ok? ==> |r.value| == |keys|
    ensures r.Ok? ==> forall i :: 0 <= i < |keys| ==> r.value[i] == FloatAt(d, keys[i])
    ensures r.Err? ==> exists i :: 0 <= i < |keys| && !Convertible(d, keys[i])
                                   && r.error == FaultAt(d, keys[i])
                                   && forall j :: 0 <= j < i ==> Convertible(d, keys[j])
  {
    var k := FirstInconvertible(d, keys);
    if k < |keys| then Err(FaultAt(d, keys[k]))
    else Ok(seq(|keys|, i requires 0 <= i < |keys| => FloatAt(d, keys[i])))
  }

  /** A dict whose keys hold values float() turns into xs, in order, yields xs. */
  lemma FloatsOfConvertible(d: Record, keys: seq<string>, xs: seq<real>)
    requires |keys| == |xs|
    requires forall i :: 0 <= i < |keys| ==> keys[i] in d && ToFloat(d[keys[i]]) == Some(xs[i])
    ensures Floats(d, keys) == Ok(xs)
  {
    assert forall i :: 0 <= i < |keys| ==> Convertible(d, keys[i]);
    var r := Floats(d, keys);
    assert r.value == xs;
  }

  // --------------------------------------------------------------
  // Inference preprocessing
  // --------------------------------------------------------------

  /** build_*_inference_features: refuse when any expected name is absent,
      listing all of them; otherwise one row in feature order, scaled when a
      scaler is present (a scaler that raises is not caught here). */
  function InferenceVector(input: Record, features: seq<string>, scaler: Option<Transform>): (r: Result<seq<real>, Fault>)
    ensures Missing(features, input.Keys) != [] ==> r == Err(MissingNames(Missing(features, input.Keys)))
    ensures Missing(features, input.Keys) == [] ==>
              (r.Ok? <==> Floats(input, features).Ok?
                          && (scaler.None? || scaler.value(Floats(input, features).value).Some?))
    ensures Missing(features, input.Keys) == [] && Floats(input, features).Err? ==> r == Floats(input, features)
    ensures r.Ok? && scaler.None? ==> r == Floats(input, features)
    ensures r.Ok? && scaler.Some? ==> Floats(input, features).Ok?
                                      && Some(r.value) == scaler.value(Floats(input, features).value)
    ensures (Missing(features, input.Keys) == [] && Floats(input, features).Ok? && scaler.Some?
             && scaler.value(Floats(input, features).value).None?) ==> r == Err(ScalerFailed)
  {
    var missing := Missing(features, input.Keys);
    if missing != [] then Err(MissingNames(missing))
    else match Floats(input, features)
      case Err(e) => Err(e)
      case Ok(x) =>
        match scaler
        case None => Ok(x)
        case Some(transform) =>
          match transform(x)
          case None => Err(ScalerFailed)
          case Some(y) => Ok(y)
  }

  /** build_trip_inference_features. */
  function TripInferenceVector(input: Record, scaler: Option<Transform>): (r: Result<seq<real>, Fault>)
    ensures scaler.None? ==> (r.Ok? <==> forall i :: 0 <= i < 4 ==> Convertible(input, TripFeatures[i]))
    ensures r.Ok? ==> forall i :: 0 <= i < 4 ==> Convertible(input, TripFeatures[i])
    ensures r.Ok? && scaler.None? ==> |r.value| == 4
    ensures r.Ok? && scaler.None? ==> forall i :: 0 <= i < 4 ==> r.value[i] == FloatAt(input, TripFeatures[i])
    ensures r.Ok? && scaler.Some? ==> Some(r.value) == scaler.value(seq(4, i requires 0 <= i < 4 => FloatAt(input, TripFeatures[i])))
  {
    InferenceVector(input, TripFeatures, scaler)
  }

  /** build_soh_inference_features. */
  function SohInferenceVector(input: Record, scaler: Option<Transform>): (r: Result<seq<real>, Fault>)
    ensures scaler.None? ==> (r.Ok? <==> forall i :: 0 <= i < 3 ==> Convertible(input, SohFeatures[i]))
    ensures r.Ok? ==> forall i :: 0 <= i < 3 ==> Convertible(input, SohFeatures[i])
    ensures r.Ok? && scaler.None? ==> |r.value| == 3
    ensures r.Ok? && scaler.None? ==> forall i :: 0 <= i < 3 ==> r.value[i] == FloatAt(input, SohFeatures[i])
    ensures r.Ok? && scaler.Some? ==> Some(r.value) == scaler.value(seq(3, i requires 0 <= i < 3 => FloatAt(input, SohFeatures[i])))
  {
    InferenceVector(input, SohFeatures, scaler)
  }

  /** The error names every missing feature, each once per occurrence in the
      feature list and in that order; when nothing is missing the error, if any,
      is not a missing-name error. */
  lemma InferenceReportsEveryMissingName(input: Record, features: seq<string>, scaler: Option<Transform>, name: string)
    ensures InferenceVector(input, features, scaler).Err? && InferenceVector(input, features, scaler).error.MissingNames? ==>
              (name in InferenceVector(input, features, scaler).error.names <==> name in features && name !in input)
    ensures (forall i :: 0 <= i < |features| ==> features[i] in input) ==>
              !(InferenceVector(input, features, scaler).Err? && InferenceVector(input, features, scaler).error.MissingNames?)
  {
  }

  /** Keys outside the feature list play no part: two inputs that agree on the
      feature names give the same vector. */
  lemma {:induction false} InferenceIgnoresExtraKeys(a: Record, b: Record, features: seq<string>, scaler: Option<Transform>)
    requires forall i :: 0 <= i < |features| ==> (features[i] in a <==> features[i] in b)
    requires forall i :: 0 <= i < |features| && features[i] in a ==> a[features[i]] == b[features[i]]
    ensures InferenceVector(a, features, scaler) == InferenceVector(b, features, scaler)
  {
    MissingAgree(a, b, features);
    FloatsAgree(a, b, features);
  }

  lemma {:induction false} MissingAgree(a: Record, b: Record, features: seq<string>)
    requires forall i :: 0 <= i < |features| ==> (features[i] in a <==> features[i] in b)
    ensures Missing(features, a.Keys) == Missing(features, b.Keys)
  {
    if features != [] {
      MissingAgree(a, b, features[1..]);
    }
  }

  lemma {:induction false} FloatsAgree(a: Record, b: Record, features: seq<string>)
    requires forall i :: 0 <= i < |features| ==> (features[i] in a <==> features[i] in b)
    requires forall i :: 0 <= i < |features| && features[i] in a ==> a[features[i]] == b[features[i]]
    ensures Floats(a, features) == Floats(b, features)
  {
    FirstInconvertibleAgree(a, b, features);
    var k := FirstInconvertible(a, features);
    if k < |features| {
      assert FaultAt(a, features[k]) == FaultAt(b, features[k]);
    } else {
      var xa := seq(|features|, i requires 0 <= i < |features| => FloatAt(a, features[i]));
      var xb := seq(|features|, i requires 0 <= i < |features| => FloatAt(b, features[i]));
      assert forall i :: 0 <= i < |features| ==> xa[i] == xb[i];
      assert xa == xb;
      assert Floats(a, features) == Ok(xa);
      assert Floats(b, features) == Ok(xb);
    }
  }

  lemma {:induction false} FirstInconvertibleAgree(a: Record, b: Record, features: seq<string>)
    requires forall i :: 0 <= i < |features| ==> (features[i] in a <==> features[i] in b)
    requires forall i :: 0 <= i < |features| && features[i] in a ==> a[features[i]] == b[features[i]]
    ensures FirstInconvertible(a, features) == FirstInconvertible(b, features)
  {
    if features != [] {
      FirstInconvertibleAgree(a, b, features[1..]);
    }
  }

  // --------------------------------------------------------------
  // Training preprocessing
  // --------------------------------------------------------------

  /** Every cell of column c converts with float(). */
  predicate ColumnNumeric(rows: seq<Record>, c: string)
  {
    forall i :: 0 <= i < |rows| ==> Convertible(rows[i], c)
  }

  /** The first column of cs holding a cell that float() rejects; |cs| when none. */
  function FirstBadColumn(rows: seq<Record>, cs: seq<string>): (k: nat)
    ensures k <= |cs|
    ensures forall j :: 0 <= j < k ==> ColumnNumeric(rows, cs[j])
    ensures k < |cs| ==> !ColumnNumeric(rows, cs[k])
  {
    if cs == [] then 0
    else if !ColumnNumeric(rows, cs[0]) then 0
    else 1 + FirstBadColumn(rows, cs[1..])
  }

  /** One training example: the feature values in order, and the target. */
  datatype Example = Example(x: seq<real>, y: real)

  /** build_*_training_features before scaling: refuse when any of the features
      or the target is absent, listing all of them in that order; convert the
      feature columns, then the target column, with astype(float); otherwise one
      example per row. */
  function TrainingExamples(f: Frame, features: seq<string>, target: string): (r: Result<seq<Example>, Fault>)
    requires WellFormed(f)
    ensures Missing(features + [target], set c | c in f.columns) != [] ==>
              r == Err(MissingNames(Missing(features + [target], set c | c in f.columns)))
    ensures Missing(features + [target], set c | c in f.columns) == []
            && (forall j :: 0 <= j < |features| + 1 ==> ColumnNumeric(f.rows, (features + [target])[j]))
            ==> r.Ok?
    ensures Missing(features + [target], set c | c in f.columns) == [] && r.Err? ==>
              exists k :: 0 <= k < |features| + 1
                && r == Err(NotNumeric((features + [target])[k]))
                && !ColumnNumeric(f.rows, (features + [target])[k])
                && forall j :: 0 <= j < k ==> ColumnNumeric(f.rows, (features + [target])[j])
    ensures r.Ok? ==> |r.value| == |f.rows|
    ensures r.Ok? ==> forall i, j :: 0 <= i < |f.rows| && 0 <= j < |features| ==> Convertible(f.rows[i], features[j])
    ensures r.Ok? ==> forall i :: 0 <= i < |f.rows| ==> Convertible(f.rows[i], target)
    ensures r.Ok? ==> forall i :: 0 <= i < |f.rows| ==>
              |r.value[i].x| == |features|
              && (forall j :: 0 <= j < |features| ==> r.value[i].x[j] == FloatAt(f.rows[i], features[j]))
              && r.value[i].y == FloatAt(f.rows[i], target)
  {
    var required := features + [target];
    var missing := Missing(required, set c | c in f.columns);
    if missing != [] then Err(MissingNames(missing))
    else
      var k := FirstBadColumn(f.rows, required);
      if k < |required| then Err(NotNumeric(required[k]))
      else
        assert forall j :: 0 <= j < |features| ==> ColumnNumeric(f.rows, required[j]) && required[j] == features[j];
        assert ColumnNumeric(f.rows, required[|features|]);
        Ok(seq(|f.rows|, i requires 0 <= i < |f.rows| =>
             Example(seq(|features|, j requires 0 <= j < |features| => FloatAt(f.rows[i], features[j])),
                     FloatAt(f.rows[i], target))))
  }

  /** The trip training refusal names every absent column, features and target
      alike. */
  lemma TripTrainingReportsEveryMissingColumn(f: Frame, name: string)
    requires WellFormed(f)
    ensures var r := TrainingExamples(f, TripFeatures, TripTarget);
            (r.Err? && r.error.MissingNames?) ==>
              (name in r.error.names <==> (name in TripFeatures || name == TripTarget) && name !in f.columns)
  {
    var r := TrainingExamples(f, TripFeatures, TripTarget);
    var required := TripFeatures + [TripTarget];
    if r.Err? && r.error.MissingNames? {
      assert Missing(required, set c | c in f.columns) != [];
      assert name in required <==> name in TripFeatures || name == TripTarget;
    }
  }
}
