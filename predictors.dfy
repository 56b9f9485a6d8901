/** The inference engine (backend/ml/predictors.py, class EVPredictor): zero-pads
    the few UI inputs into the 20 columns the trained models expect, asks the
    estimator for the energy a trip uses (clamped, or a physical fallback when the
    estimator raises), and derives the end state of charge, an 11-point discharge
    curve and a risk level; the battery-health prediction falls back to a fixed
    "healthy" value. Rounding of the reported figures is left out. */
module Predictors {
  import opened Python
  import opened FeatureBuilder

  /** model.predict(X)[0] passed through float(); None when either raises. */
  type Estimator = seq<real> -> Option<real>

  /** The artifacts loaded once at start-up; the scaler is optional. */
  datatype EVPredictor = EVPredictor(tripModel: Estimator, sohModel: Estimator, scaler: Option<Transform>)

  /** Columns of the trained models. */
  const ModelColumns: nat := 20

  /** Returned by predict_soh whenever the estimator raises. */
  const FallbackSoh: real := 98.2

  datatype RiskLevel = Low | Warning | Critical

  datatype CurvePoint = CurvePoint(distance: real, soc: real)

  datatype TripResult = TripResult(
    energyConsumedPct: real,
    predictedEndSoc: real,
    energyCurve: seq<CurvePoint>,
    riskLevel: RiskLevel)

  // --------------------------------------------------------------
  // _prepare_data_with_padding
  // --------------------------------------------------------------

  /** The zero row of `total` columns with `values` written into its first slots. */
  function Padded(values: seq<real>, total: nat): seq<real>
    requires |values| <= total
  {
    seq(total, i requires 0 <= i < total => if i < |values| then values[i] else 0.0)
  }

  /** A run of n zero slots. */
  function Zeros(n: nat): (z: seq<real>)
    ensures |z| == n && forall i :: 0 <= i < n ==> z[i] == 0.0
  {
    seq(n, _ => 0.0)
  }

  /** Scaling whose failure is swallowed: the row is kept as it was when there is
      no scaler or its transform raises. */
  function ScaledOrRaw(scaler: Option<Transform>, x: seq<real>): seq<real>
  {
    match scaler
    case None => x
    case Some(transform) =>
      match transform(x)
      case None => x
      case Some(y) => y
  }

  /** The slots of a padded row: the expected features in order, then zeros. */
  predicate PaddedLayout(x: seq<real>, d: Record, expected: seq<string>, total: nat)
    requires forall i :: 0 <= i < |expected| ==> Convertible(d, expected[i])
  {
    && |x| == total
    && (forall i :: 0 <= i < |expected| && i < total ==> x[i] == FloatAt(d, expected[i]))
    && (forall i :: |expected| <= i < total ==> x[i] == 0.0)
  }

  /** What _prepare_data_with_padding returns or raises. */
  function Prepared(d: Record, expected: seq<string>, total: nat, scaler: Option<Transform>): Result<seq<real>, Fault>
  {
    match Floats(d, expected)
    case Err(e) => Err(e)
    case Ok(values) =>
      if |values| > total then Err(IndexOutOfRange)
      else Ok(ScaledOrRaw(scaler, Padded(values, total)))
  }

  /** np.zeros((1, total)) filled slot by slot with `values`; writing slot
      `total` raises IndexError. */
  method PadRow(values: seq<real>, total: nat) returns (r: Result<seq<real>, Fault>)
    ensures |values| > total ==> r == Err(IndexOutOfRange)
    ensures |values| <= total ==> r.Ok? && |r.value| == total
    ensures r.Ok? ==> (forall i :: 0 <= i < |values| ==> r.value[i] == values[i])
                      && (forall i :: |values| <= i < total ==> r.value[i] == 0.0)
  {
    var row := new real[total](_ => 0.0);
    var i := 0;
    while i < |values|
      invariant 0 <= i <= |values| && i <= total
      invariant forall j :: 0 <= j < total ==> row[j] == if j < i then values[j] else 0.0
    {
      if i >= total {
        return Err(IndexOutOfRange);
      }
      row[i] := values[i];
      i := i + 1;
    }
    r := Ok(row[..]);
  }

  /** Extracts the expected values (a missing or non-numeric one raises; nothing
      is substituted for it), pads them into a zero row of `total` columns and
      scales the row when it can. */
  method PrepareWithPadding(d: Record, expected: seq<string>, total: nat, scaler: Option<Transform>)
    returns (r: Result<seq<real>, Fault>)
    ensures r == Prepared(d, expected, total, scaler)
  {
    var extracted := Floats(d, expected);
    if extracted.Err? {
      return Err(extracted.error);
    }
    var padded := PadRow(extracted.value, total);
    if padded.Err? {
      return padded;
    }
    assert padded.value == Padded(extracted.value, total);
    r := Ok(ScaledOrRaw(scaler, padded.value));
  }

  /** The padded row: the expected features' values in order, then zeros up to
      `total`; it is returned unchanged when there is no scaler or the scaler
      raises. A missing or non-numeric feature is an error, never a zero. */
  lemma PreparedLayout(d: Record, expected: seq<string>, total: nat, scaler: Option<Transform>)
    ensures Prepared(d, expected, total, scaler).Ok? <==>
              (forall i :: 0 <= i < |expected| ==> Convertible(d, expected[i])) && |expected| <= total
    ensures Prepared(d, expected, total, scaler).Ok? ==>
              var raw := Padded(Floats(d, expected).value, total);
              PaddedLayout(raw, d, expected, total) && Prepared(d, expected, total, scaler).value == ScaledOrRaw(scaler, raw)
    ensures Prepared(d, expected, total, scaler).Ok? && (scaler.None? || scaler.value(Padded(Floats(d, expected).value, total)).None?) ==>
              PaddedLayout(Prepared(d, expected, total, scaler).value, d, expected, total)
    ensures !(forall i :: 0 <= i < |expected| ==> Convertible(d, expected[i])) ==>
              Prepared(d, expected, total, scaler) == Err(Floats(d, expected).error)
  {
  }

  // --------------------------------------------------------------
  // predict_trip_feasibility
  // --------------------------------------------------------------

  /** The sanity bound on a successful prediction. */
  function ClampEnergy(raw: real): (e: real)
    ensures 2.0 <= e <= 100.0
    ensures 2.0 <= raw <= 100.0 ==> e == raw
    ensures raw < 2.0 ==> e == 2.0
    ensures raw > 100.0 ==> e == 100.0
  {
    Max(2.0, Min(raw, 100.0))
  }

  /** The physical approximation used when the estimator raises. */
  function FallbackEnergy(distanceKm: real, passengerLoad: real): real
  {
    distanceKm * 0.3 + passengerLoad * 0.05
  }

  /** The energy a trip uses, in percent of charge. */
  function TripEnergy(model: Estimator, x: seq<real>, distanceKm: real, passengerLoad: real): real
  {
    match model(x)
    case Some(raw) => ClampEnergy(raw)
    case None => FallbackEnergy(distanceKm, passengerLoad)
  }

  /** max(start_soc - energy, 0). */
  function EndSoc(startSoc: real, energy: real): (e: real)
    ensures e >= 0.0
    ensures energy >= 0.0 && startSoc >= 0.0 ==> e <= startSoc
    ensures startSoc >= energy ==> e == startSoc - energy
    ensures startSoc < energy ==> e == 0.0
  {
    Max(startSoc - energy, 0.0)
  }

  /** Point i of the linear discharge curve. */
  function CurvePointAt(startSoc: real, energy: real, totalDistance: real, i: nat): CurvePoint
  {
    CurvePoint((totalDistance / 10.0) * (i as real), Max(startSoc - energy * ((i as real) / 10.0), 0.0))
  }

  /** The eleven points i = 0 .. 10. */
  function DischargeCurve(startSoc: real, energy: real, totalDistance: real): seq<CurvePoint>
  {
    seq(11, i requires 0 <= i < 11 => CurvePointAt(startSoc, energy, totalDistance, i))
  }

  /** The risk rule on the predicted end state of charge. */
  function Risk(endSoc: real): RiskLevel
  {
    if endSoc < 15.0 then Critical
    else if endSoc < 30.0 then Warning
    else Low
  }

  /** Higher is more severe. */
  function Severity(r: RiskLevel): nat
  {
    match r
    case Low => 0
    case Warning => 1
    case Critical => 2
  }

  /** What predict_trip_feasibility returns or raises. */
  function TripFeasibility(p: EVPredictor, d: Record): Result<TripResult, Fault>
  {
    match Prepared(d, TripFeatures, ModelColumns, p.scaler)
    case Err(e) => Err(e)
    case Ok(x) =>
      var v := Floats(d, TripFeatures).value;
      var energy := TripEnergy(p.tripModel, x, v[1], v[3]);
      var endSoc := EndSoc(v[0], energy);
      Ok(TripResult(energy, endSoc, DischargeCurve(v[0], energy, v[1]), Risk(endSoc)))
  }

  /** The `for i in range(11)` loop that appends the curve points. */
  method BuildCurve(startSoc: real, energy: real, totalDistance: real) returns (curve: seq<CurvePoint>)
    ensures curve == DischargeCurve(startSoc, energy, totalDistance)
    ensures |curve| == 11
    ensures forall i :: 0 <= i < 11 ==> curve[i].distance == (totalDistance / 10.0) * (i as real)
    ensures forall i :: 0 <= i < 11 ==> curve[i].soc == Max(startSoc - energy * ((i as real) / 10.0), 0.0)
  {
    curve := [];
    for i := 0 to 11
      invariant |curve| == i
      invariant forall j :: 0 <= j < i ==> curve[j] == CurvePointAt(startSoc, energy, totalDistance, j)
    {
      var stepDist := (totalDistance / 10.0) * (i as real);
      var progress := (i as real) / 10.0;
      var stepSoc := Max(startSoc - energy * progress, 0.0);
      curve := curve + [CurvePoint(stepDist, stepSoc)];
    }
  }

  /** predict_trip_feasibility. */
  method PredictTripFeasibility(p: EVPredictor, d: Record) returns (r: Result<TripResult, Fault>)
    ensures r == TripFeasibility(p, d)
    ensures r.Ok? <==> forall i :: 0 <= i < |TripFeatures| ==> Convertible(d, TripFeatures[i])
    ensures r.Ok? ==> 0.0 <= r.value.predictedEndSoc && |r.value.energyCurve| == 11
  {
    PreparedLayout(d, TripFeatures, ModelColumns, p.scaler);
    var prepared := PrepareWithPadding(d, TripFeatures, ModelColumns, p.scaler);
    if prepared.Err? {
      return Err(prepared.error);
    }
    var x := prepared.value;
    var v := Floats(d, TripFeatures).value;
    var energyUsed: real;
    match p.tripModel(x) {
      case Some(raw) =>
        energyUsed := Max(2.0, Min(raw, 100.0));
      case None =>
        energyUsed := v[1] * 0.3 + v[3] * 0.05;
    }
    assert energyUsed == TripEnergy(p.tripModel, x, v[1], v[3]);
    var startSoc := v[0];
    var totalDistance := v[1];
    var endSoc := Max(startSoc - energyUsed, 0.0);
    assert endSoc == EndSoc(startSoc, energyUsed);
    var curve := BuildCurve(startSoc, energyUsed, totalDistance);
    var risk := Low;
    if endSoc < 15.0 {
      risk := Critical;
    } else if endSoc < 30.0 {
      risk := Warning;
    }
    assert risk == Risk(endSoc);
    r := Ok(TripResult(energyUsed, endSoc, curve, risk));
  }

  /** The risk level is CRITICAL below 15, WARNING from 15 up to 30, LOW from 30 on. */
  lemma RiskBands(endSoc: real)
    ensures Risk(endSoc) == Critical <==> endSoc < 15.0
    ensures Risk(endSoc) == Warning <==> 15.0 <= endSoc < 30.0
    ensures Risk(endSoc) == Low <==> endSoc >= 30.0
  {
  }

  /** Less charge left never means less risk. */
  lemma RiskMonotone(a: real, b: real)
    requires a <= b
    ensures Severity(Risk(b)) <= Severity(Risk(a))
  {
  }

  /** Point 0 starts at the start charge (when it is not negative) and point 10
      ends at the end charge. */
  lemma CurveEndpoints(startSoc: real, energy: real, totalDistance: real)
    ensures var c := DischargeCurve(startSoc, energy, totalDistance);
            |c| == 11 && c[0].distance == 0.0 && c[10].distance == totalDistance
            && (startSoc >= 0.0 ==> c[0].soc == startSoc)
            && c[10].soc == EndSoc(startSoc, energy)
  {
    var c := DischargeCurve(startSoc, energy, totalDistance);
    assert c[10] == CurvePointAt(startSoc, energy, totalDistance, 10);
    assert (10 as real) / 10.0 == 1.0;
  }

  /** A non-negative energy gives a curve whose charge never rises. */
  lemma CurveNonIncreasing(startSoc: real, energy: real, totalDistance: real, i: nat, j: nat)
    requires energy >= 0.0
    requires i <= j < 11
    ensures DischargeCurve(startSoc, energy, totalDistance)[j].soc <= DischargeCurve(startSoc, energy, totalDistance)[i].soc
  {
    var c := DischargeCurve(startSoc, energy, totalDistance);
    assert c[i] == CurvePointAt(startSoc, energy, totalDistance, i);
    assert c[j] == CurvePointAt(startSoc, energy, totalDistance, j);
    var pi := (i as real) / 10.0;
    var pj := (j as real) / 10.0;
    assert pi <= pj;
    ScaleMonotone(energy, pi, pj);
  }

  /** Scaling by a non-negative factor keeps the order. */
  lemma ScaleMonotone(e: real, a: real, b: real)
    requires e >= 0.0 && a <= b
    ensures e * a <= e * b
  {
    assert e * b - e * a == e * (b - a);
  }

  /** The trip prediction: a successful estimate lies in [2, 100] whatever the
      estimator said; a failed one is exactly the physical fallback, unclamped;
      the end charge is the start charge less the energy, floored at 0; the curve
      runs from the start charge to the end charge; the risk follows the end
      charge. */
  lemma TripFeasibilityFacts(p: EVPredictor, d: Record)
    requires TripFeasibility(p, d).Ok?
    ensures var res := TripFeasibility(p, d).value;
            var x := Prepared(d, TripFeatures, ModelColumns, p.scaler).value;
            var start := FloatAt(d, "start_soc");
            var distance := FloatAt(d, "route_distance_km");
            && (p.tripModel(x).Some? ==> 2.0 <= res.energyConsumedPct <= 100.0)
            && (p.tripModel(x).None? ==> res.energyConsumedPct == distance * 0.3 + FloatAt(d, "passenger_load") * 0.05)
            && res.predictedEndSoc == Max(start - res.energyConsumedPct, 0.0)
            && |res.energyCurve| == 11
            && (start >= 0.0 ==> res.energyCurve[0].soc == start)
            && res.energyCurve[10].soc == res.predictedEndSoc
            && res.energyCurve[10].distance == distance
            && res.riskLevel == Risk(res.predictedEndSoc)
  {
    var v := Floats(d, TripFeatures).value;
    assert v[0] == FloatAt(d, TripFeatures[0]);
    assert v[1] == FloatAt(d, TripFeatures[1]);
    assert v[3] == FloatAt(d, TripFeatures[3]);
    var res := TripFeasibility(p, d).value;
    CurveEndpoints(v[0], res.energyConsumedPct, v[1]);
  }

  /** With start charge s and energy e both non-negative, the end charge lies in
      [0, s]. */
  lemma EndSocBetween(p: EVPredictor, d: Record)
    requires TripFeasibility(p, d).Ok?
    requires FloatAt(d, "start_soc") >= 0.0
    requires FloatAt(d, "route_distance_km") >= 0.0 && FloatAt(d, "passenger_load") >= 0.0
    ensures 0.0 <= TripFeasibility(p, d).value.predictedEndSoc <= FloatAt(d, "start_soc")
  {
    var v := Floats(d, TripFeatures).value;
    assert v[0] == FloatAt(d, TripFeatures[0]);
    assert v[1] == FloatAt(d, TripFeatures[1]);
    assert v[3] == FloatAt(d, TripFeatures[3]);
  }

  // --------------------------------------------------------------
  // predict_soh
  // --------------------------------------------------------------

  /** What predict_soh returns or raises: padding errors propagate, estimator
      errors give the fixed 98.2. */
  function SohPrediction(p: EVPredictor, d: Record): Result<real, Fault>
  {
    match Prepared(d, SohFeatures, ModelColumns, p.scaler)
    case Err(e) => Err(e)
    case Ok(x) =>
      match p.sohModel(x)
      case Some(soh) => Ok(soh)
      case None => Ok(FallbackSoh)
  }

  /** predict_soh. */
  method PredictSoh(p: EVPredictor, d: Record) returns (r: Result<real, Fault>)
    ensures r == SohPrediction(p, d)
    ensures r.Ok? <==> forall i :: 0 <= i < |SohFeatures| ==> Convertible(d, SohFeatures[i])
    ensures r.Ok? && p.sohModel(Prepared(d, SohFeatures, ModelColumns, p.scaler).value).None? ==> r.value == 98.2
  {
    var prepared := PrepareWithPadding(d, SohFeatures, ModelColumns, p.scaler);
    if prepared.Err? {
      return Err(prepared.error);
    }
    var soh: real;
    match p.sohModel(prepared.value) {
      case Some(s) => soh := s;
      case None => soh := 98.2;
    }
    r := Ok(soh);
  }
}
