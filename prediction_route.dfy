/** The trip-prediction endpoint (backend/routes/prediction.py, POST
    /api/prediction/predict) as a function from the JSON body to a reply: the
    guard sequence, the sanitised dict handed to the prediction service, and the
    reply built from the service's answer. Flask's request and response objects
    are left out; a body that is absent or is not JSON is `None`. */
module PredictionRoute {
  import opened Python
  import opened Predictors
  import opened PredictionService

  /** Why a request is refused. */
  datatype Reason =
    | Malformed              // no JSON body, or a falsy one
    | MissingFields          // route_id, passenger_load or weather absent
    | NotNumericInput        // float() rejected the load or the charge
    | LoadOutOfRange
    | SocOutOfRange
    | NotADict               // a truthy body that has no .get: Flask's own 500
    | Offline                // the prediction service failed to import
    | EngineError(fault: Fault)

  function StatusOf(reason: Reason): int
  {
    match reason
    case Malformed => 400
    case MissingFields => 400
    case NotNumericInput => 400
    case LoadOutOfRange => 400
    case SocOutOfRange => 400
    case NotADict => 500
    case Offline => 503
    case EngineError(_) => 500
  }

  /** sanitized_data. */
  datatype Sanitized = Sanitized(routeId: string, passengerLoad: real, weather: string, currentSoc: real, busId: string)

  datatype Reply =
    | Refused(status: int, reason: Reason)
    | Answered(data: TripPrediction)

  /** route_id and weather are truthy and passenger_load is present and not None. */
  predicate FieldsPresent(data: Record)
  {
    Truthy(Get(data, "route_id", Null)) && "passenger_load" in data && !data["passenger_load"].Null?
    && Truthy(Get(data, "weather", Null))
  }

  /** The guard sequence: body, required fields, numbers, bounds. */
  function Validate(body: Option<Value>, show: Value -> string): (r: Result<Sanitized, Reason>)
    ensures body.None? || !Truthy(body.value) ==> r == Err(Malformed)
    ensures body.Some? && Truthy(body.value) && !body.value.Dict? ==> r == Err(NotADict)
    ensures r.Ok? ==> 0.0 <= r.value.passengerLoad <= 100.0 && 0.0 <= r.value.currentSoc <= 100.0
    ensures body.Some? && body.value.Dict? && Truthy(body.value) && !FieldsPresent(body.value.entries) ==> r == Err(MissingFields)
    ensures body.Some? && body.value.Dict? && Truthy(body.value) && FieldsPresent(body.value.entries) ==>
              var load := ToFloat(body.value.entries["passenger_load"]);
              var soc := ToFloat(Get(body.value.entries, "current_soc", Float(95.0)));
              && (load.None? || soc.None? ==> r == Err(NotNumericInput))
              && (load.Some? && soc.Some? && !(0.0 <= load.value <= 100.0) ==> r == Err(LoadOutOfRange))
              && (load.Some? && soc.Some? && 0.0 <= load.value <= 100.0 && !(0.0 <= soc.value <= 100.0) ==> r == Err(SocOutOfRange))
              && (load.Some? && soc.Some? && 0.0 <= load.value <= 100.0 && 0.0 <= soc.value <= 100.0 ==> r.Ok?)
    ensures r.Ok? ==> r.value.passengerLoad == ToFloat(body.value.entries["passenger_load"]).value
                      && r.value.currentSoc == ToFloat(Get(body.value.entries, "current_soc", Float(95.0))).value
    ensures r.Ok? ==> r.value.weather == Strip(Lower(Text(Get(body.value.entries, "weather", Null), show)))
                      && r.value.routeId == Text(Get(body.value.entries, "route_id", Null), show)
                      && r.value.busId == Text(Get(body.value.entries, "bus_id", Str("EV-COMMANDER-01")), show)
  {
    if body.None? || !Truthy(body.value) then Err(Malformed)
    else if !body.value.Dict? then Err(NotADict)
    else
      var data := body.value.entries;
      var routeId := Get(data, "route_id", Null);
      var passengerLoad := Get(data, "passenger_load", Null);
      var weather := Get(data, "weather", Null);
      var currentSoc := Get(data, "current_soc", Float(95.0));
      var busId := Get(data, "bus_id", Str("EV-COMMANDER-01"));
      if !Truthy(routeId) || passengerLoad.Null? || !Truthy(weather) then Err(MissingFields)
      else
        match ToFloat(passengerLoad)
        case None => Err(NotNumericInput)
        case Some(load) =>
          match ToFloat(currentSoc)
          case None => Err(NotNumericInput)
          case Some(soc) =>
            if !(0.0 <= load <= 100.0) then Err(LoadOutOfRange)
            else if !(0.0 <= soc <= 100.0) then Err(SocOutOfRange)
            else Ok(Sanitized(Text(routeId, show), load, Strip(Lower(Text(weather, show))), soc, Text(busId, show)))
  }

  /** The dict handed to predict_trip. */
  function AsPayload(s: Sanitized): Record
  {
    map["route_id" := Str(s.routeId), "passenger_load" := Float(s.passengerLoad),
        "weather" := Str(s.weather), "current_soc" := Float(s.currentSoc), "bus_id" := Str(s.busId)]
  }

  /** The service reads back the sanitised numbers. */
  lemma PayloadNumbers(s: Sanitized)
    ensures NumberField(AsPayload(s), "passenger_load", Int(0)) == Some(s.passengerLoad)
    ensures NumberField(AsPayload(s), "current_soc", Float(95.0)) == Some(s.currentSoc)
    ensures Get(AsPayload(s), "bus_id", Str("EV-COMMANDER")) == Str(s.busId)
    ensures Get(AsPayload(s), "route_id", Str("R-001")) == Str(s.routeId)
  {
  }

  /** The endpoint. `serviceLoaded` is false when the service failed to import;
      `predictor` is None when the engine failed to initialise. */
  function Predict(body: Option<Value>, serviceLoaded: bool, predictor: Option<EVPredictor>, show: Value -> string): (r: Reply)
    ensures Validate(body, show).Err? ==> r == Refused(StatusOf(Validate(body, show).error), Validate(body, show).error)
    ensures r == Refused(503, Offline) <==> Validate(body, show).Ok? && !serviceLoaded
    ensures r.Answered? <==> Validate(body, show).Ok? && serviceLoaded && predictor.Some?
    ensures Validate(body, show).Ok? && serviceLoaded && predictor.None? ==> r == Refused(500, EngineError(NotInitialized))
    ensures r.Answered? ==>
              var s := Validate(body, show).value;
              && r.data.weather == s.weather
              && r.data.busId == Str(s.busId) && r.data.routeId == Str(s.routeId)
              && r.data.recommendedSpeed == (if r.data.riskLevel == Critical then 40 else 60)
    ensures r.Answered? ==>
              var s := Validate(body, show).value;
              var answer := PredictTrip(predictor, AsPayload(s), show);
              && answer.Ok?
              && r.data.predictedEndSoc == answer.value.predictedEndSoc
              && r.data.predictedSoh == answer.value.predictedSoh
              && r.data.riskLevel == answer.value.riskLevel
              && r.data.energyCurve == answer.value.energyCurve
    ensures Validate(body, show).Ok? && serviceLoaded && PredictTrip(predictor, AsPayload(Validate(body, show).value), show).Err? ==>
              r == Refused(500, EngineError(PredictTrip(predictor, AsPayload(Validate(body, show).value), show).error))
  {
    match Validate(body, show)
    case Err(reason) => Refused(StatusOf(reason), reason)
    case Ok(s) =>
      if !serviceLoaded then Refused(503, Offline)
      else
        PayloadNumbers(s);
        match PredictTrip(predictor, AsPayload(s), show)
        case Err(e) => Refused(500, EngineError(e))
        case Ok(result) => Answered(result.(weather := s.weather))
  }

  /** The service works from the same weather as the reply: lower-casing and
      stripping the sanitised weather again changes nothing, so the speed and
      the temperature variance are chosen from the sanitised text. */
  lemma ServiceSeesSanitizedWeather(body: Option<Value>, show: Value -> string)
    requires Validate(body, show).Ok?
    ensures WeatherField(AsPayload(Validate(body, show).value), show) == Validate(body, show).value.weather
  {
    var s := Validate(body, show).value;
    var raw := Text(Get(body.value.entries, "weather", Null), show);
    assert s.weather == Strip(Lower(raw));
    assert Get(AsPayload(s), "weather", Str("normal")) == Str(s.weather);
    LowerStripIdempotent(raw);
  }

  /** An answered request is predicted from the request's own numbers: the
      end charge is the trip model's on the sanitised charge, load and weather,
      and the health model sees the depth of discharge that end charge gives. */
  lemma PredictFromRequest(body: Option<Value>, serviceLoaded: bool, predictor: Option<EVPredictor>, show: Value -> string)
    requires Predict(body, serviceLoaded, predictor, show).Answered?
    ensures var s := Validate(body, show).value;
            var p := predictor.value;
            var data := Predict(body, serviceLoaded, predictor, show).data;
            var x := ScaledOrRaw(p.scaler, [s.currentSoc, 45.0, AvgSpeed(s.weather), s.passengerLoad] + Zeros(16));
            var xs := ScaledOrRaw(p.scaler, [120.0, s.currentSoc - data.predictedEndSoc, TemperatureVariance(s.weather)] + Zeros(17));
            && data.predictedEndSoc == EndSoc(s.currentSoc, TripEnergy(p.tripModel, x, 45.0, s.passengerLoad))
            && data.predictedSoh == (if p.sohModel(xs).Some? then p.sohModel(xs).value else 98.2)
            && data.weather == s.weather
  {
    var s := Validate(body, show).value;
    PayloadNumbers(s);
    ServiceSeesSanitizedWeather(body, show);
    PredictTripFeatureMapping(predictor.value, AsPayload(s), show);
  }

  /** A load of 0 is a load, not a missing field; without current_soc the
      charge is 95, and without bus_id the bus is "EV-COMMANDER-01". */
  lemma ZeroLoadAccepted(data: Record, show: Value -> string)
    requires Truthy(Get(data, "route_id", Null)) && Truthy(Get(data, "weather", Null))
    requires "passenger_load" in data && (data["passenger_load"] == Int(0) || data["passenger_load"] == Float(0.0))
    requires "current_soc" !in data
    ensures Validate(Some(Dict(data)), show).Ok?
    ensures Validate(Some(Dict(data)), show).value.passengerLoad == 0.0
    ensures Validate(Some(Dict(data)), show).value.currentSoc == 95.0
    ensures "bus_id" !in data ==> Validate(Some(Dict(data)), show).value.busId == "EV-COMMANDER-01"
  {
    assert Truthy(Dict(data));
  }
}
