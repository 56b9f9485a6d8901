# EV-Bus Intelligent Fleet Analytics — a verified model of its rules

This project models, in Dafny, the deterministic rules that sit around the
I/O of the EV-bus fleet analytics backend and its battery dashboard page:

- the inference engine's 20-slot zero padding, energy clamp and physical
  fallback, end state of charge, eleven-point discharge curve, risk rule and
  98.2 health fallback;
- the feature builder's fixed-order vectors and its "name every missing
  column" checks;
- the prediction service's request-to-feature mapping, and the prediction
  endpoint's guard sequence;
- the three status tables: 60/80 for maintenance, 50/60/90 for fleet logs and
  the logs endpoint, and 25/50 on state of charge for the route view;
- the maintenance analytics fold and the dashboard readiness/alert loop;
- the fleet-log and telemetry enrichment loops, query construction, and the
  logs endpoint's limit clamp, date checks, status loop and record
  normalisation;
- the route view's nearest charging station and per-bus entries;
- the two training-set derivations: per-battery resistance growth with the
  trailing 50-row thermal mean, and per-trip first/last/max/mean
  aggregation;
- the dashboard page's 20-column input record and its HIGH/MEDIUM/LOW rule.

One Dafny module stands for each source file. The module `Python` holds the
dynamic values the code passes around:

- `Value`, for a JSON/Mongo value;
- `Record`, for a dict;
- the semantics of `float()`, truthiness, `str.lower().strip()`, and the
  "missing names" comprehension.

Numbers are Dafny `real`. The parts outside the model are parameters:

- each scikit-learn estimator and scaler is a function returning `None`
  where it raises;
- each MongoDB read is an optional list of records, `None` standing for a
  `PyMongoError`. Where the query depends on the request (fleet logs,
  telemetry export) it is a function from query and limit to that optional
  list; where the query is fixed (dashboard, route view, maintenance
  analytics) it is the optional list itself;
- `datetime.fromisoformat` is a function `string -> Option<DateTime>`;
- `str()` of non-string values is a function `show`;
- the random draws of the route view are a function from bus index to
  draws.

Where the code mutates in place, the model does too:

- records fixed up in a loop are an `array<Record>`, updated by a method
  whose `ensures` ties the new contents to a per-record function;
- the padding loop, the curve loop, and the dashboard and maintenance folds
  are methods with loop invariants, proved equal to the function that
  states their result.

The model follows the code as written, including two behaviours a reader may not expect:

- an exception in the middle of the dashboard's per-bus loop keeps the
  status counts and alerts of the buses already processed. It does not
  return zeroed metrics.
- the logs endpoint multiplies by 100 any health of at most 1, although
  `get_fleet_logs` has already turned the stored fraction into a percentage.
  `LogsRoute.DoubleRescale` exhibits the consequence: a stored fraction of
  0.005 is Critical for the service and Attention for the endpoint.

## Model

| member | source | states |
|---|---|---|
| Predictors.Zeros | backend/ml/predictors.py:64 | the zero row: n slots, each 0.0 |
| Predictors.PadRow | backend/ml/predictors.py:63-68 | the fill loop: with at most `total` values, a row of exactly `total` slots whose first slots are the values in order; more values than slots is an IndexError |
| Predictors.PrepareWithPadding | backend/ml/predictors.py:56-78 | `_prepare_data_with_padding` yields exactly the padded, then possibly scaled, row of `Prepared` |
| Predictors.PreparedLayout | backend/ml/predictors.py:61-78 | preparation succeeds iff every expected key is present and convertible (no value is substituted for a missing one); the row has `total` slots, the expected values in list order, then zeros; with no scaler, or a scaler that raises, the unscaled padded row is returned |
| Predictors.ClampEnergy | backend/ml/predictors.py:94 | a model estimate is brought into [2, 100]: unchanged inside, 2 below, 100 above |
| Predictors.EndSoc | backend/ml/predictors.py:105 | end charge = max(start − energy, 0): never negative, at most the start for non-negative inputs, exact when the start covers the energy |
| Predictors.BuildCurve | backend/ml/predictors.py:108-117 | the loop yields 11 points; point i lies at distance total/10·i with charge max(start − energy·i/10, 0) |
| Predictors.CurveEndpoints | backend/ml/predictors.py:108-117 | the curve starts at distance 0 with the start charge (for a non-negative start) and ends at the full distance with the end charge |
| Predictors.CurveNonIncreasing | backend/ml/predictors.py:108-117 | with non-negative energy the charge along the curve never rises |
| Predictors.RiskBands | backend/ml/predictors.py:120-124 | CRITICAL iff end charge < 15, WARNING iff 15 ≤ end < 30, LOW iff ≥ 30 |
| Predictors.RiskMonotone | backend/ml/predictors.py:120-124 | less charge left never gives a less severe risk |
| Predictors.PredictTripFeasibility | backend/ml/predictors.py:80-131 | succeeds iff the four trip features are present and convertible; then the end charge is ≥ 0 and the curve has 11 points |
| Predictors.TripFeasibilityFacts | backend/ml/predictors.py:85-124 | a model estimate lies in [2, 100]; when the model raises, the energy is distance·0.3 + load·0.05, unclamped; the end charge is max(start − energy, 0); the curve runs from the start charge to the end charge over the route distance; the risk follows the end charge |
| Predictors.EndSocBetween | backend/ml/predictors.py:94-105 | with non-negative start, distance and load, the end charge lies in [0, start] |
| Predictors.PredictSoh | backend/ml/predictors.py:133-142 | succeeds iff the three health features are present and convertible; the health is 98.2 whenever the estimator raises |
| FeatureBuilder.FirstInconvertible | backend/ml/feature_builder.py:90 | the index of the first key whose `float(d[k])` raises: every earlier key converts, that one does not |
| FeatureBuilder.Floats | backend/ml/feature_builder.py:89-91 | the list comprehension succeeds iff every key converts, and then holds one value per key, in key order |
| FeatureBuilder.FloatsOfConvertible | backend/ml/feature_builder.py:89-91 | a dict whose keys hold values that float() turns into xs yields exactly xs |
| FeatureBuilder.InferenceVector | backend/ml/feature_builder.py:85-96 | missing names refuse with the list of all of them; with none missing it succeeds iff every value converts and the scaler, if any, does not raise; a conversion error is `float()`'s, a raising scaler is `ScalerFailed`; the row is the ordered float values, passed through the scaler when there is one |
| FeatureBuilder.TripInferenceVector | backend/ml/feature_builder.py:81-96 | without a scaler it succeeds iff all 4 trip features convert, and the row has 4 entries, entry i being `float(input[trip_features[i]])`; with a scaler a result is the scaler's answer on that row |
| FeatureBuilder.SohInferenceVector | backend/ml/feature_builder.py:98-113 | without a scaler it succeeds iff all 3 health features convert, and the row has 3 entries, entry i being `float(input[soh_features[i]])`; with a scaler a result is the scaler's answer on that row |
| FeatureBuilder.InferenceReportsEveryMissingName | backend/ml/feature_builder.py:85-87 | a name is in the error iff it is a feature absent from the input; with every feature present there is no missing-name error |
| FeatureBuilder.InferenceIgnoresExtraKeys | backend/ml/feature_builder.py:85-96 | two inputs that agree on the feature names give the same result, whatever other keys they hold |
| FeatureBuilder.FirstBadColumn | backend/ml/feature_builder.py:49-50 | the first column holding a cell that `astype(float)` rejects: every earlier column is numeric, that one is not |
| FeatureBuilder.TrainingExamples | backend/ml/feature_builder.py:44-50 | absent columns, features plus target, are all reported in required order; with nothing absent, Ok iff every required column converts, otherwise the error names the first column `astype(float)` rejects; an Ok result has one example per row, holding the feature values in order and the target |
| FeatureBuilder.TripTrainingReportsEveryMissingColumn | backend/ml/feature_builder.py:44-47 | a name is in the trip training error iff it is a required column the frame lacks |
| Python.Missing | backend/ml/feature_builder.py:45 | the comprehension keeps exactly the required names that are absent; empty iff all are present |
| Python.MissingAppend | backend/ml/feature_builder.py:44-45 | the missing names of `features + [target]` are those of the features followed by that of the target, so the order of `required` is kept |
| PredictionService.TripInputs | backend/services/prediction_service.py:47-59 | the trip dict reads back, in feature order, as (soc, 45, speed, load) |
| PredictionService.SohInputs | backend/services/prediction_service.py:67-72 | the health dict reads back as (120, soc − end soc, temperature variance) |
| PredictionService.TripInputsAccepted | backend/services/prediction_service.py:54-63 | the engine always accepts the trip dict; its answer obeys the risk rule and ends the curve at the end charge |
| PredictionService.SohInputsAccepted | backend/services/prediction_service.py:68-73 | the engine always accepts the health dict |
| PredictionService.TripRow | backend/services/prediction_service.py:54-63 | the trip model sees (soc, 45, speed, load) followed by 16 zeros, scaled when a scaler is loaded |
| PredictionService.SohRow | backend/services/prediction_service.py:67-73 | the health model sees (120, depth of discharge, variance) followed by 17 zeros |
| PredictionService.Infer | backend/services/prediction_service.py:63-73 | both inference calls, on those rows; risk, end charge and curve end agree |
| PredictionService.PredictTrip | backend/services/prediction_service.py:34-99 | raises before reading the payload when no engine is loaded; fails iff a number does not convert; recommended speed 40 iff CRITICAL else 60; end charge, risk and whole curve are those of the trip model on the payload's load, charge and weather; weather lower-cased and stripped; bus id defaults to "EV-COMMANDER" |
| PredictionService.PredictTripFeatureMapping | backend/services/prediction_service.py:39-81 | end charge from the trip model on (soc, 45, speed, load); health from the model on (120, soc − end, variance), or 98.2 |
| PredictionService.WeatherMapping | backend/services/prediction_service.py:47-52 | speed 42 iff the weather is one of the five adverse kinds, else 55; variance 12 iff weather ≠ "normal", else 4 |
| PredictionService.EmptyPayloadDefaults | backend/services/prediction_service.py:39-43 | an empty payload means 0 passengers, 95 % charge, weather "normal", bus "EV-COMMANDER", route "R-001" |
| PredictionRoute.Validate | backend/routes/prediction.py:38-80 | guards in source order: no or empty body; missing route_id, load (None) or weather; non-numeric numbers; load and charge outside [0, 100]; accepted values are in range and are the float values sent; the weather is `str(weather).lower().strip()`, the route id `str(route_id)` and the bus id `str(bus_id)` with default "EV-COMMANDER-01" |
| PredictionRoute.PayloadNumbers | backend/routes/prediction.py:71-77 | the service reads back the sanitised load, charge, bus and route |
| PredictionRoute.Predict | backend/routes/prediction.py:31-116 | a refusal carries its guard's status; 503 iff valid and the service did not import; answered iff valid, imported and initialised; the reply carries the sanitised weather and ids and the 40/60 speed rule, and the end charge, health, risk and curve of `predict_trip` on the sanitised dict; a service error is a 500 |
| PredictionRoute.ServiceSeesSanitizedWeather | backend/routes/prediction.py:74 | for every accepted request the service re-derives exactly the reply's weather, since lower-casing and stripping twice is the same as once |
| PredictionRoute.PredictFromRequest | backend/routes/prediction.py:71-99 | an answered request's end charge is the trip model's on the sanitised charge, load and weather, and its health the health model's on the resulting depth of discharge |
| PredictionRoute.ZeroLoadAccepted | backend/routes/prediction.py:50-69 | a load of 0 is accepted; a missing charge becomes 95.0 and a missing bus id "EV-COMMANDER-01" |
| Python.LowerStripIdempotent | backend/routes/prediction.py:74 | `lower().strip()` applied twice equals once |
| MaintenanceService.ComputeStatus | backend/services/maintenance_service.py:38-46 | Critical iff < 60, Warning iff 60 ≤ h < 80, Healthy iff ≥ 80 |
| MaintenanceService.ServiceDaysFollowStatus | backend/services/maintenance_service.py:48-58 | 7 days iff Critical, 30 iff Warning, 90 iff Healthy; the next-service date lies that many days after now |
| MaintenanceService.FeatureRow | backend/services/maintenance_service.py:82 | the float row exists iff every item converts, and holds their values in order |
| MaintenanceService.PredictMaintenanceForBus | backend/services/maintenance_service.py:64-111 | errors in order: empty bus id, empty or non-list features, no model; then success iff the features convert and the model answers, otherwise `PredictionFailed`; health = clamp(model, 0, 1)·100 in [0, 100], degradation = 1 − health/100, RUL = int(health·1.2) in [0, 120], status and next service from the health, last service or "Unknown" |
| MaintenanceService.RulMonotone | backend/services/maintenance_service.py:92 | a healthier battery never has a shorter predicted RUL |
| MaintenanceService.PredictedRulMonotone | backend/services/maintenance_service.py:82-92 | of two successful predictions, the one with the higher health has the RUL at least as long |
| MaintenanceService.GetMaintenanceAnalytics | backend/services/maintenance_service.py:117-169 | a failed `find()` is exactly the database-error reply; otherwise the loop computes `MaintenanceAnalytics` of the fetched records; an empty collection gives 0, 0, None and [] |
| MaintenanceService.AlertsWithinUpcoming | backend/services/maintenance_service.py:137-157 | alerts ≤ upcoming services ≤ normalised records ≤ records: non-numeric health is skipped |
| MaintenanceService.AverageWithinBounds | backend/services/maintenance_service.py:159 | the average is None iff no record has a numeric health; otherwise it lies within any bounds on the numeric healths |
| MaintenanceService.SohsFromRecords | backend/services/maintenance_service.py:138-148 | every health averaged comes from a record with a numeric current_soh |
| MaintenanceService.CountBelowMonotone | backend/services/maintenance_service.py:142-146 | fewer healths lie below 60 than below 80 |
| FleetService.StatusAndIssues | backend/services/fleet_service.py:10-24 | Good iff ≥ 90, Proper iff [60, 90), Attention iff [50, 60), Critical iff < 50; issues = 1 iff < 60 |
| FleetService.StatusMonotone | backend/services/fleet_service.py:17-24 | a lower health never has fewer issues or a better status at the extremes |
| FleetService.DateCondition | backend/services/fleet_service.py:49-54 | a date condition exists iff some bound is given: `$gte`/`$lte` for each given bound |
| FleetService.FleetLogsQuery | backend/services/fleet_service.py:45-54 | bus_id key iff the id is truthy; maintenance_due key iff a bound is given; no other key |
| FleetService.TelemetryQuery | backend/services/fleet_service.py:100-110 | a falsy bus id is refused; otherwise the query holds the id |
| FleetService.EnrichLog | backend/services/fleet_service.py:66-82 | one loop body: fails iff float() of predicted_soh raises, else the enriched row |
| FleetService.EnrichedLogFacts | backend/services/fleet_service.py:66-82 | the enriched row keeps every other key and gains the health·100, the formatted due date or "--", the issues (default []), and the status and issue count of the percentage |
| FleetService.EnrichFleetLogs | backend/services/fleet_service.py:66-82 | the in-place loop: without fault every row is enriched; on fault the rows before the bad one are enriched and the rest unchanged |
| FleetService.GetFleetLogs | backend/services/fleet_service.py:45-84 | a failed fetch is a database error; success means every fetched row converted and is enriched, in order |
| FleetService.ConvertFieldsFacts | backend/services/fleet_service.py:126-132 | each listed field present becomes float(v), or 0.0 where float() raises; keys and other fields unchanged |
| FleetService.ConvertNumericFields | backend/services/fleet_service.py:127-132 | the inner loop computes that conversion over the nine numeric fields |
| FleetService.EnrichTelemetryRow | backend/services/fleet_service.py:127-138 | one loop body equals `TelemetryRow` |
| FleetService.EnrichTelemetry | backend/services/fleet_service.py:126-138 | the in-place loop enriches every row and never raises |
| FleetService.TelemetryRowFacts | backend/services/fleet_service.py:126-138 | numeric fields are floats (0.0 where unconvertible); a row without predicted_soh is Critical with 1 issue; otherwise the status of the converted health·100 |
| FleetService.GetTelemetryForCsv | backend/services/fleet_service.py:89-140 | a falsy bus id raises before any fetch; a failed fetch is a database error; otherwise one enriched row per fetched row |
| DashboardService.AlertOfNotReady | backend/services/dashboard_service.py:81-92 | for a bus that is not ready: level critical iff unhealthy; the degradation message wins over low charge; never "Check Vehicle Status" |
| DashboardService.HourMinute | backend/services/dashboard_service.py:120 | "%H:%M": five characters, hour < 24 and minute < 60 of the time |
| DashboardService.ScanBuses | backend/services/dashboard_service.py:58-92 | the loop's totals, ready count, status counts and alerts are those of the buses parsed before a conversion raised; complete iff none raised |
| DashboardService.BuildHistory | backend/services/dashboard_service.py:118-124 | the history loop yields `History`: one point per document until a conversion raises |
| DashboardService.GetDashboardMetrics | backend/services/dashboard_service.py:19-129 | the method yields `DashboardMetrics` |
| DashboardService.AlertCount | backend/services/dashboard_service.py:75-92 | exactly one alert per bus that is not ready |
| DashboardService.EveryUnreadyBusAlerted | backend/services/dashboard_service.py:78-92 | every bus that is not ready has its alert in the list |
| DashboardService.EveryAlertFromUnreadyBus | backend/services/dashboard_service.py:78-92 | every alert belongs to a bus that is not ready |
| DashboardService.ReadyCountAll | backend/services/dashboard_service.py:72-76 | ready count = buses iff every bus has soh ≥ 0.7 and soc·10 ≥ 20 |
| DashboardService.ReadinessBounds | backend/services/dashboard_service.py:98 | int(ready/total·100) lies in [0, 100] and is 100 iff every bus is ready |
| DashboardService.DashboardFacts | backend/services/dashboard_service.py:24-129 | charging and idle stay 0; alerts = critical; active + critical = buses processed; a failed aggregation gives the defaults; after a complete pass the readiness is in [0, 100], 100 iff all ready, and CO2 = energy/1.2·0.8; a mid-loop failure leaves KPIs and history at their defaults |
| LogsRoute.ParseIsoDate | backend/routes/logs.py:29-35 | an absent or empty argument gives no date |
| LogsRoute.ClampLimit | backend/routes/logs.py:91 | the limit lies in [1, 1000]: unchanged inside, 1 below, 1000 above |
| LogsRoute.LimitFromText | backend/routes/logs.py:91 | a decimal limit is used clamped; text int() rejects gives the default 100 |
| LogsRoute.Validate | backend/routes/logs.py:90-101 | errors in order: bad start, bad end, start after end (iff both parse and start > end); accepted requests carry the bus id, the clamped limit, the parsed dates (a date iff one was supplied), start ≤ end, and export iff the argument lower-cased is "true" |
| LogsRoute.BusValue | backend/routes/logs.py:90 | the bus id the services see is truthy iff supplied and non-empty |
| LogsRoute.ColumnsSplit | backend/routes/logs.py:51-79 | the 27 CSV columns are the 17 safe_float columns plus the 10 others, disjoint |
| LogsRoute.NormalizeRecordKeys | backend/routes/logs.py:51-79 | a normalised record always has the same 27 keys |
| LogsRoute.NormalizeRecordFloats | backend/routes/logs.py:45-70 | a numeric column holds float(field), or 0.0 where the field is missing, None or unconvertible |
| LogsRoute.NormalizeRecordOther | backend/routes/logs.py:52-78 | the other columns come from the record with their defaults |
| LogsRoute.NormalizeRecordDefaults | backend/routes/logs.py:52-78 | missing bus_id and status become "--" |
| LogsRoute.NormalizeRecordSoh | backend/routes/logs.py:55 | the health is always a float, taken from predicted_soh when soh is falsy |
| LogsRoute.NormalizeAll | backend/routes/logs.py:121-173 | one normalised record per record, in order |
| LogsRoute.LogPercent | backend/routes/logs.py:155-156 | a health ≤ 1 is scaled by 100, any other is kept |
| LogsRoute.LogStatusMatchesFleet | backend/routes/logs.py:160-171 | the 90/60/50 table gives the same status and issue count as `compute_status_and_issues` |
| LogsRoute.WithStatusFacts | backend/routes/logs.py:153-171 | the loop body writes status and issues from the percentage and leaves every other key as it was |
| LogsRoute.DeriveStatuses | backend/routes/logs.py:153-171 | the in-place loop: without fault every record is updated; a health that cannot be compared with 1 raises, with the records before it updated and the rest unchanged |
| LogsRoute.DoubleRescale | backend/routes/logs.py:154-157 | a stored fraction of 0.005 is Critical after enrichment and Attention after this loop |
| LogsRoute.ExportCsv | backend/routes/logs.py:107-136 | `ExportAnswers`: 400 without bus_id before any fetch; 500 on a failed fetch; 404 on no rows; otherwise the normalised enriched telemetry rows |
| LogsRoute.SummaryRecords | backend/routes/logs.py:153-173 | None iff some record cannot be compared; else the normalised, status-derived records in order |
| LogsRoute.FleetSummary | backend/routes/logs.py:141-188 | `SummaryAnswers`: failed fetch or loop gives 500; no records gives an empty summary; otherwise the limit and the normalised, status-derived enriched records |
| LogsRoute.FleetLogs | backend/routes/logs.py:85-188 | validation errors are 400s; export without bus_id is 400; CSV only when export was asked, a summary only when not; each refusal carries its status; a valid export request gets the CSV path's answer and any other valid request the summary path's, both on the validated bus id, clamped limit and parsed dates |
| RouteStatus.ClampFacts | backend/routes/route.py:20-21 | with lo ≤ hi the result lies in [lo, hi] and equals the value when it is in range |
| RouteStatus.Normalize | backend/routes/route.py:23-27 | 0.0 where float() raises, the number otherwise |
| RouteStatus.StatusFromSoc | backend/routes/route.py:29-35 | CRITICAL iff < 25, MEDIOCRE iff [25, 50), GOOD iff ≥ 50 |
| RouteStatus.SocPercent | backend/routes/route.py:90 | raw·100 for raw ≤ 1, else min(raw, 100); never above 100 |
| RouteStatus.OverrideFixesStatus | backend/routes/route.py:79-91 | a drawn SOC in its band makes every third bus CRITICAL, the next MEDIOCRE, the next GOOD |
| RouteStatus.MinIndex | backend/routes/route.py:48-52 | the scan returns an index of minimal squared distance, with every earlier one strictly farther |
| RouteStatus.NearestCharging | backend/routes/route.py:48-52 | a station from the list that no other is closer than, the first one on a tie |
| RouteStatus.NearestAtStation | backend/routes/route.py:14-52 | at a station's own position that station is offered |
| RouteStatus.Position | backend/routes/route.py:93-98 | simulated iff lat or lng is None; a stored position is numeric |
| RouteStatus.BusEntries | backend/routes/route.py:87-120 | one entry per telemetry row, each from its index and its draw |
| RouteStatus.GetRouteStatus | backend/routes/route.py:64-134 | the loop yields `RouteStatusOf` |
| RouteStatus.BusEntryFacts | backend/routes/route.py:88-118 | a station iff CRITICAL, then the nearest; SOC ≤ 100 with its status; fallback route `route_ids[idx % 5]`; simulated GPS iff lat or lng was None |
| RouteStatus.RouteStatusEntries | backend/routes/route.py:87-126 | a successful reply has one entry per row, in order |
| RouteStatus.RouteStatusFails | backend/routes/route.py:65-134 | a 500 iff a fetch failed or a stored coordinate is not a number |
| TrainSoh.Sort | backend/ml/train_soh_model.py:29 | the rows ordered by (battery_id, cycle_count): sorted, and a permutation |
| TrainSoh.OfBattery | backend/ml/train_soh_model.py:33 | the group holds exactly the rows of that battery |
| TrainSoh.AdjacentGrowth | backend/ml/train_soh_model.py:32-36 | in lifecycle order, growth = difference from the row above within a battery, 0 on its first row |
| TrainSoh.ThermalAvgShortHistory | backend/ml/train_soh_model.py:38-44 | with fewer than 50 rows so far, thermal_avg_50 is the row's own value |
| TrainSoh.SortedWindow | backend/ml/train_soh_model.py:38-42 | with 50 rows so far, it is the mean of the 50 consecutive rows ending at the row |
| TrainSoh.ThermalAvgConstant | backend/ml/train_soh_model.py:38-44 | a battery whose thermal stress is constant averages to that value |
| TrainSoh.BuildSohDataset | backend/ml/train_soh_model.py:11-56 | missing columns are all reported in order; otherwise one 4-feature example per row, row i of the ordered frame |
| TrainSoh.RowExampleFacts | backend/ml/train_soh_model.py:46-54 | features (cycle, resistance, growth, thermal average) in that order; target SOH |
| TrainSoh.SohDatasetPermutes | backend/ml/train_soh_model.py:29-54 | every example comes from an input row, and the ordering is a permutation |
| TrainSoh.SohDatasetReportsEveryMissingColumn | backend/ml/train_soh_model.py:24-26 | a name is reported iff it is a required column the frame lacks |
| TrainTrip.CheckRawColumns | backend/ml/train_trip_feasibility.py:41-51 | no error iff every raw column is present; the error names exactly the absent ones |
| TrainTrip.TripIds | backend/ml/train_trip_feasibility.py:18-24 | the trip ids, strictly increasing, are exactly the ids in the frame |
| TrainTrip.OfTrip | backend/ml/train_trip_feasibility.py:19-23 | a group holds exactly the rows of its trip |
| TrainTrip.MaxDistance | backend/ml/train_trip_feasibility.py:21 | the maximum distance is ≥ every distance in the group and is one of them |
| TrainTrip.BuildTripDataset | backend/ml/train_trip_feasibility.py:12-30 | one sample per distinct trip id |
| TrainTrip.TripDatasetFacts | backend/ml/train_trip_feasibility.py:19-28 | start and end SOC are the trip's first and last rows; energy = start − end; distance is the trip's maximum |
| TrainTrip.TripGroup | backend/ml/train_trip_feasibility.py:18-24 | sample k aggregates the rows of the k-th smallest id |
| TrainTrip.TripSpeedWithin | backend/ml/train_trip_feasibility.py:22 | the mean speed lies within the range of the trip's speeds |
| TrainTrip.TripSetTrains | backend/ml/train_trip_feasibility.py:56-62 | the trip frame passes the feature builder; each trip gives the example (start, distance, speed, load) with target energy |
| BatteryApp.OverTempFlag | app.py:112 | 1 iff the battery is above 45 °C, else 0 |
| BatteryApp.ModelRowSelectsByName | app.py:96-119 | column i of the model row is the record's value under the i-th feature name |
| BatteryApp.ModelRowFromForm | app.py:96-119 | the first five columns are the form's voltage, current, temperatures and resistance |
| BatteryApp.ModelRowDerived | app.py:102-119 | action current and voltage mirror current and voltage; stress and efficiency from the form; over-temperature flag 1 iff > 45 |
| BatteryApp.ModelRowConstants | app.py:104-119 | the fixed operating point: 0.02, −0.01, −0.3, 0.25, 45, 0.003, 0, 5, 14, 2 |
| BatteryApp.RiskOf | app.py:125-133 | HIGH iff stress > 0.75 or temp > 45; MEDIUM iff not HIGH and stress > 0.5; LOW otherwise |
| BatteryApp.RiskMonotone | app.py:125-133 | more stress or heat never lowers the risk; a HIGH from heat comes with the over-temperature flag |
| BatteryApp.Submit | app.py:119-133 | a result iff scaler and both models succeed; the risk from the form, the predictions from the scaled row |
| BatteryApp.DefaultFormIsLowRisk | app.py:72-88 | the form's initial values are in range and LOW risk |

## Left out

- Rounding (`round(x, n)`) everywhere is left out: values are stated before rounding.
  - This covers the logs loop's rounding to one decimal before the 90/60/50 comparisons (logs.py:157) and the route view's rounding of the SOC percentage.
  - A value within 0.05 of a threshold can therefore classify differently from the rounded original.
- IEEE floating point is left out: NaN, infinities, overflow and the float text forms `inf`, `nan` and exponents. Numbers are reals. Only ASCII `lower()`/`strip()` are modelled, and the model's `ParseInt`/`ParseFloat` reject the underscores Python's `int()` and `float()` accept. `TrainingExamples` rejects a `None` cell, where pandas' `astype(float)` gives NaN.
- `str()` of floats, containers and dates is left out; the `show` parameter stands for it.
- Not modelled:
  - the CSV text and filename;
  - logging and `print`;
  - the JSON envelope (`success`, `count`);
  - the timestamp string of a prediction.
- MongoDB is left out:
  - the `$group`/`$sort`/`$limit` pipelines;
  - the `insert_one`/`update_one` writes, and so the "Database error" reply `predict_maintenance_for_bus` gives when its `update_one` raises;
  - the `_id` removal.

  Fetches are parameters returning records in the order the database gives them.
- The wall clock is left out: "now" is a parameter, and the date is a count of seconds.
- `datetime.fromisoformat` is a parameter. Time-zone-aware versus naive comparison is not modelled.
- Randomness in the route view is left out:
  - the GPS simulation and its global state;
  - the random route points;
  - the SOC override.

  These are draws from a parameter, and `OverrideFixesStatus` assumes each draw lies in its stated band.
- Scikit-learn and joblib are left out: model and scaler loading, `fit`, `fit_transform`, `train_test_split`, `score` and the dumps. Estimators and scalers are functions that may fail.
- Not modelled:
  - the lazy `get_soh_model` cache;
  - the predictor's start-up failure path, beyond "no predictor";
  - the scaler's optional load.
- In the training sets, ids are integers, so pandas' ordering of string ids is not modelled.
- TrainSoh.Sort: sortedness and permutation are proved, but the stability of the secondary order (rows with equal battery and cycle) is not.
- TrainTrip.BuildTripDataset: pandas' `first()`/`last()` skip NaN SOC values; the model takes the first and last rows.
- TrainTrip.TripSetTrains: the StandardScaler fitted on the features is not modelled.
- The Streamlit page layout, its model-file existence checks and its metric formatting are left out.
- BatteryApp.InFormRange: the widgets' bounds are stated, not enforced on the form values.
