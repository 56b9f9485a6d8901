/** The prediction service (backend/services/prediction_service.py, predict_trip):
    maps the sanitised request onto the two models' inputs (a fixed route
    distance, a weather-dependent average speed, the depth of discharge the trip
    causes, a weather-dependent temperature variance), runs both predictions and
    derives the recommended speed. Rounding, the timestamp and the copy saved to
    MongoDB are left out. */
module PredictionService {
  import opened Python
  import opened FeatureBuilder
  import opened Predictors

  /** Every prediction assumes this route length. */
  const RouteDistanceKm: real := 45.0

  /** The simulated cycle count handed to the battery-health model. */
  const BatteryCycles: int := 120

  /** Weather that slows the bus down to 42 km/h. */
  const AdverseWeather: seq<string> := ["hot", "cold", "extreme heat", "extreme cold", "rainy"]

  /** The result dict, without the timestamp. */
  datatype TripPrediction = TripPrediction(
    busId: Value,
    routeId: Value,
    predictedEndSoc: real,
    predictedSoh: real,
    riskLevel: RiskLevel,
    recommendedSpeed: int,
    energyCurve: seq<CurvePoint>,
    weather: string)

  /** float(payload.get(key, default)); None when float() raises. */
  function NumberField(payload: Record, key: string, default: Value): Option<real>
  {
    ToFloat(Get(payload, key, default))
  }

  /** str(payload.get("weather", "normal")).lower().strip(). */
  function WeatherField(payload: Record, show: Value -> string): string
  {
    Strip(Lower(Text(Get(payload, "weather", Str("normal")), show)))
  }

  function AvgSpeed(weather: string): real
  {
    if weather in AdverseWeather then 42.0 else 55.0
  }

  function TemperatureVariance(weather: string): real
  {
    if weather != "normal" then 12.0 else 4.0
  }

  /** The trip model's input dict; its values, read in the model's feature
      order, are the start charge, the fixed distance, the speed and the load. */
  function TripInputs(load: real, soc: real, weather: string): (d: Record)
    ensures Floats(d, TripFeatures) == Ok([soc, RouteDistanceKm, AvgSpeed(weather), load])
  {
    var d := map["start_soc" := Float(soc), "route_distance_km" := Float(RouteDistanceKm),
                 "avg_speed_kmph" := Float(AvgSpeed(weather)), "passenger_load" := Float(load)];
    FloatsOfConvertible(d, TripFeatures, [soc, RouteDistanceKm, AvgSpeed(weather), load]);
    d
  }

  /** The battery-health model's input dict; its values, read in that model's
      feature order, are the cycle count, the depth of discharge and the
      temperature variance. */
  function SohInputs(soc: real, endSoc: real, weather: string): (d: Record)
    ensures Floats(d, SohFeatures) == Ok([BatteryCycles as real, soc - endSoc, TemperatureVariance(weather)])
  {
    var d := map["battery_cycles" := Int(BatteryCycles), "avg_depth_of_discharge" := Float(soc - endSoc),
                 "temperature_variance" := Float(TemperatureVariance(weather))];
    FloatsOfConvertible(d, SohFeatures, [BatteryCycles as real, soc - endSoc, TemperatureVariance(weather)]);
    d
  }

  /** The trip model accepts the dict built from any load, charge and weather;
      its answer obeys the risk rule and ends the curve at the end charge. */
  lemma TripInputsAccepted(p: EVPredictor, load: real, soc: real, weather: string)
    ensures TripFeasibility(p, TripInputs(load, soc, weather)).Ok?
    ensures var t := TripFeasibility(p, TripInputs(load, soc, weather)).value;
            && t.riskLevel == Risk(t.predictedEndSoc) && t.predictedEndSoc >= 0.0
            && |t.energyCurve| == 11 && t.energyCurve[10].soc == t.predictedEndSoc
  {
    var d := TripInputs(load, soc, weather);
    assert Prepared(d, TripFeatures, ModelColumns, p.scaler).Ok?;
    TripFeasibilityFacts(p, d);
  }

  /** The battery-health model accepts the dict built from any charges and weather. */
  lemma SohInputsAccepted(p: EVPredictor, soc: real, endSoc: real, weather: string)
    ensures SohPrediction(p, SohInputs(soc, endSoc, weather)).Ok?
  {
    var d := SohInputs(soc, endSoc, weather);
    assert Prepared(d, SohFeatures, ModelColumns, p.scaler).Ok?;
  }

  /** The trip model's row: start charge, 45 km, the speed, the load, then zeros. */
  lemma TripRow(p: EVPredictor, load: real, soc: real, weather: string)
    ensures var x := ScaledOrRaw(p.scaler, [soc, 45.0, AvgSpeed(weather), load] + Zeros(16));
            && Prepared(TripInputs(load, soc, weather), TripFeatures, ModelColumns, p.scaler) == Ok(x)
            && TripFeasibility(p, TripInputs(load, soc, weather)).value.predictedEndSoc
               == EndSoc(soc, TripEnergy(p.tripModel, x, 45.0, load))
  {
    var v := [soc, 45.0, AvgSpeed(weather), load];
    assert Padded(v, 20) == v + Zeros(16);
  }

  /** The battery-health model's row: 120, the depth of discharge, the
      temperature variance, then zeros. */
  lemma SohRow(p: EVPredictor, soc: real, endSoc: real, weather: string)
    ensures var xs := ScaledOrRaw(p.scaler, [120.0, soc - endSoc, TemperatureVariance(weather)] + Zeros(17));
            SohPrediction(p, SohInputs(soc, endSoc, weather)) == Ok(if p.sohModel(xs).Some? then p.sohModel(xs).value else 98.2)
  {
    var w := [120.0, soc - endSoc, TemperatureVariance(weather)];
    assert Padded(w, 20) == w + Zeros(17);
  }

  /** Both predictions for one trip. */
  datatype Outlook = Outlook(trip: TripResult, soh: real)

  /** The two inference calls: the trip model sees the start charge, 45 km,
      the weather's speed and the load, zero-padded; the battery-health model
      sees 120 cycles, the depth of discharge (start charge less predicted end
      charge) and the weather's temperature variance, zero-padded; the predicted
      health is that model's answer or 98.2. Neither call can fail here. */
  function Infer(p: EVPredictor, load: real, soc: real, weather: string): (o: Outlook)
    ensures var x := ScaledOrRaw(p.scaler, [soc, 45.0, AvgSpeed(weather), load] + Zeros(16));
            o.trip.predictedEndSoc == EndSoc(soc, TripEnergy(p.tripModel, x, 45.0, load))
    ensures var xs := ScaledOrRaw(p.scaler, [120.0, soc - o.trip.predictedEndSoc, TemperatureVariance(weather)] + Zeros(17));
            o.soh == (if p.sohModel(xs).Some? then p.sohModel(xs).value else 98.2)
    ensures o.trip.riskLevel == Risk(o.trip.predictedEndSoc) && o.trip.predictedEndSoc >= 0.0
    ensures |o.trip.energyCurve| == 11 && o.trip.energyCurve[10].soc == o.trip.predictedEndSoc
  {
    TripInputsAccepted(p, load, soc, weather);
    TripRow(p, load, soc, weather);
    var trip := TripFeasibility(p, TripInputs(load, soc, weather)).value;
    SohInputsAccepted(p, soc, trip.predictedEndSoc, weather);
    SohRow(p, soc, trip.predictedEndSoc, weather);
    Outlook(trip, SohPrediction(p, SohInputs(soc, trip.predictedEndSoc, weather)).value)
  }

  /** What predict_trip returns or raises. The engine is checked before the
      payload is read; the payload's load and charge must convert with float().
      The inference itself cannot fail on the dicts built here. */
  function PredictTrip(predictor: Option<EVPredictor>, payload: Record, show: Value -> string): (r: Result<TripPrediction, Fault>)
    ensures predictor.None? ==> r == Err(NotInitialized)
    ensures r.Ok? <==> predictor.Some? && NumberField(payload, "passenger_load", Int(0)).Some?
                       && NumberField(payload, "current_soc", Float(95.0)).Some?
    ensures predictor.Some? && NumberField(payload, "passenger_load", Int(0)).None? ==> r == Err(NotNumeric("passenger_load"))
    ensures r.Ok? ==> r.value.recommendedSpeed == (if r.value.riskLevel == Critical then 40 else 60)
    ensures r.Ok? ==> r.value.riskLevel == Risk(r.value.predictedEndSoc) && r.value.predictedEndSoc >= 0.0
    ensures r.Ok? ==> |r.value.energyCurve| == 11 && r.value.energyCurve[10].soc == r.value.predictedEndSoc
    ensures r.Ok? ==> r.value.weather == WeatherField(payload, show)
    ensures r.Ok? ==> r.value.busId == Get(payload, "bus_id", Str("EV-COMMANDER"))
                      && r.value.routeId == Get(payload, "route_id", Str("R-001"))
    ensures r.Ok? ==>
              var trip := TripFeasibility(predictor.value, TripInputs(NumberField(payload, "passenger_load", Int(0)).value,
                                                                      NumberField(payload, "current_soc", Float(95.0)).value,
                                                                      WeatherField(payload, show)));
              && trip.Ok?
              && r.value.energyCurve == trip.value.energyCurve
              && r.value.riskLevel == trip.value.riskLevel
              && r.value.predictedEndSoc == trip.value.predictedEndSoc
  {
    match predictor
    case None => Err(NotInitialized)
    case Some(p) =>
      match NumberField(payload, "passenger_load", Int(0))
      case None => Err(NotNumeric("passenger_load"))
      case Some(load) =>
        match NumberField(payload, "current_soc", Float(95.0))
        case None => Err(NotNumeric("current_soc"))
        case Some(soc) =>
          var weather := WeatherField(payload, show);
          var o := Infer(p, load, soc, weather);
          Ok(TripPrediction(
            Get(payload, "bus_id", Str("EV-COMMANDER")),
            Get(payload, "route_id", Str("R-001")),
            o.trip.predictedEndSoc,
            o.soh,
            o.trip.riskLevel,
            if o.trip.riskLevel == Critical then 40 else 60,
            o.trip.energyCurve,
            weather))
  }

  /** The feature mapping: the trip model sees the start charge, 45 km, 42 km/h
      in adverse weather (55 otherwise) and the load, zero-padded; the
      battery-health model sees 120 cycles, the depth of discharge (start charge
      less predicted end charge) and a temperature variance of 12 unless the
      weather is "normal" (4 then), zero-padded; the predicted health is the
      model's answer or 98.2. */
  lemma {:induction false} PredictTripFeatureMapping(p: EVPredictor, payload: Record, show: Value -> string)
    requires PredictTrip(Some(p), payload, show).Ok?
    ensures var res := PredictTrip(Some(p), payload, show).value;
            var load := NumberField(payload, "passenger_load", Int(0)).value;
            var soc := NumberField(payload, "current_soc", Float(95.0)).value;
            var weather := WeatherField(payload, show);
            var x := ScaledOrRaw(p.scaler, [soc, 45.0, AvgSpeed(weather), load] + Zeros(16));
            var xs := ScaledOrRaw(p.scaler, [120.0, soc - res.predictedEndSoc, TemperatureVariance(weather)] + Zeros(17));
            && res.predictedEndSoc == EndSoc(soc, TripEnergy(p.tripModel, x, 45.0, load))
            && res.predictedSoh == (if p.sohModel(xs).Some? then p.sohModel(xs).value else 98.2)
  {
    var load := NumberField(payload, "passenger_load", Int(0)).value;
    var soc := NumberField(payload, "current_soc", Float(95.0)).value;
    var weather := WeatherField(payload, show);
    PredictTripInfers(p, payload, show);
    var o := Infer(p, load, soc, weather);
  }

  /** A successful reply carries the two inferred values. */
  lemma PredictTripInfers(p: EVPredictor, payload: Record, show: Value -> string)
    requires PredictTrip(Some(p), payload, show).Ok?
    ensures var res := PredictTrip(Some(p), payload, show).value;
            var o := Infer(p, NumberField(payload, "passenger_load", Int(0)).value,
                           NumberField(payload, "current_soc", Float(95.0)).value, WeatherField(payload, show));
            res.predictedEndSoc == o.trip.predictedEndSoc && res.predictedSoh == o.soh
  {
  }

  /** Adverse weather means 42 km/h and anything else 55; any weather but
      "normal" means a temperature variance of 12 and "normal" means 4. */
  lemma WeatherMapping(weather: string)
    ensures AvgSpeed(weather) == 42.0 <==> weather in AdverseWeather
    ensures AvgSpeed(weather) == 55.0 <==> weather !in AdverseWeather
    ensures TemperatureVariance(weather) == 12.0 <==> weather != "normal"
    ensures TemperatureVariance(weather) == 4.0 <==> weather == "normal"
  {
  }

  /** An empty payload is the standard trip: 0 passengers, 95 % charge, normal
      weather, bus "EV-COMMANDER" on route "R-001". */
  lemma EmptyPayloadDefaults(p: EVPredictor, show: Value -> string)
    ensures var r := PredictTrip(Some(p), map[], show);
            && r.Ok?
            && r.value.busId == Str("EV-COMMANDER") && r.value.routeId == Str("R-001")
            && r.value.weather == "normal"
            && NumberField(map[], "passenger_load", Int(0)) == Some(0.0)
            && NumberField(map[], "current_soc", Float(95.0)) == Some(95.0)
  {
    EmptyPayloadWeather(show);
    assert NumberField(map[], "passenger_load", Int(0)) == Some(0.0);
    assert NumberField(map[], "current_soc", Float(95.0)) == Some(95.0);
  }

  /** Without a weather field the weather is "normal". */
  lemma EmptyPayloadWeather(show: Value -> string)
    ensures WeatherField(map[], show) == "normal"
  {
    assert Text(Get(map[], "weather", Str("normal")), show) == "normal";
    assert Lower("normal") == "normal";
    assert StripLeft("normal") == "normal";
    assert StripRight("normal") == "normal";
  }
}
