/** Battery maintenance (backend/services/maintenance_service.py): the
    60/80 health classifier, the choice of the next service date, the
    single-bus prediction with its derived fields, and the fleet analytics fold
    over the stored maintenance records. Loading the model file, the MongoDB
    reads and writes and the wall clock are left out: the model, the records
    and "now" are parameters. Rounding is left out. */
module MaintenanceService {
  import opened Python

  datatype Status = Healthy | Warning | Critical

  /** compute_status. */
  function ComputeStatus(sohPercent: real): (s: Status)
    ensures s == Critical <==> sohPercent < 60.0
    ensures s == Warning <==> 60.0 <= sohPercent < 80.0
    ensures s == Healthy <==> sohPercent >= 80.0
  {
    if sohPercent < 60.0 then Critical
    else if sohPercent < 80.0 then Warning
    else Healthy
  }

  /** The day offset estimate_next_service adds to today. */
  function ServiceDays(sohPercent: real): nat
  {
    if sohPercent < 60.0 then 7
    else if sohPercent < 80.0 then 30
    else 90
  }

  /** estimate_next_service, as the date it formats. */
  function NextService(now: DateTime, sohPercent: real): Value
  {
    DateText(AddDays(now, ServiceDays(sohPercent)), "%Y-%m-%d")
  }

  /** The service interval follows the status: a week for Critical, a month for
      Warning, a quarter for Healthy. */
  lemma ServiceDaysFollowStatus(sohPercent: real, now: DateTime)
    ensures ServiceDays(sohPercent) == 7 <==> ComputeStatus(sohPercent) == Critical
    ensures ServiceDays(sohPercent) == 30 <==> ComputeStatus(sohPercent) == Warning
    ensures ServiceDays(sohPercent) == 90 <==> ComputeStatus(sohPercent) == Healthy
    ensures NextService(now, sohPercent).when.ordinal - now.ordinal == ServiceDays(sohPercent) * 86400
  {
  }

  // --------------------------------------------------------------
  // predict_maintenance_for_bus
  // --------------------------------------------------------------

  /** The error dicts predict_maintenance_for_bus returns. */
  datatype MaintenanceError = NoBusId | NoFeatures | ModelUnavailable | PredictionFailed

  /** The record it returns (and upserts). */
  datatype MaintenanceRecord = MaintenanceRecord(
    busId: Value,
    currentSoh: real,
    degradationScore: real,
    predictedRul: int,
    status: Status,
    lastService: Value,
    nextService: Value,
    updatedAt: DateTime)

  /** np.array([features], dtype=float) as one row; None when an item does not
      convert. */
  function FeatureRow(items: seq<Value>): (r: Option<seq<real>>)
    ensures r.Some? <==> forall i :: 0 <= i < |items| ==> ToFloat(items[i]).Some?
    ensures r.Some? ==> |r.value| == |items| && forall i :: 0 <= i < |items| ==> Some(r.value[i]) == ToFloat(items[i])
  {
    if items == [] then Some([])
    else
      match ToFloat(items[0])
      case None => None
      case Some(x) =>
        match FeatureRow(items[1..])
        case None => None
        case Some(xs) => Some([x] + xs)
  }

  /** predict_maintenance_for_bus, without the upsert. `model` is None when the
      model file could not be loaded; the estimator returns None when predict
      raises. */
  function PredictMaintenanceForBus(busId: Value, features: Value, lastService: Value,
                                    model: Option<seq<real> -> Option<real>>, now: DateTime): (r: Result<MaintenanceRecord, MaintenanceError>)
    ensures !Truthy(busId) ==> r == Err(NoBusId)
    ensures Truthy(busId) && !(features.List? && features.items != []) ==> r == Err(NoFeatures)
    ensures Truthy(busId) && features.List? && features.items != [] && model.None? ==> r == Err(ModelUnavailable)
    ensures r.Ok? ==> 0.0 <= r.value.currentSoh <= 100.0
                      && 0.0 <= r.value.degradationScore <= 1.0
                      && r.value.degradationScore == 1.0 - r.value.currentSoh / 100.0
                      && r.value.predictedRul == Trunc(r.value.currentSoh * 1.2)
                      && 0 <= r.value.predictedRul <= 120
                      && r.value.status == ComputeStatus(r.value.currentSoh)
                      && r.value.nextService == NextService(now, r.value.currentSoh)
                      && r.value.lastService == (if Truthy(lastService) then lastService else Str("Unknown"))
    ensures Truthy(busId) && features.List? && features.items != [] && model.Some? ==>
              (r.Ok? <==> FeatureRow(features.items).Some? && model.value(FeatureRow(features.items).value).Some?)
    ensures Truthy(busId) && features.List? && features.items != [] && model.Some? && r.Err? ==>
              r == Err(PredictionFailed)
    ensures r.Ok? ==> features.List? && model.Some? && FeatureRow(features.items).Some?
    ensures r.Ok? ==> var x := FeatureRow(features.items).value;
                      model.value(x).Some?
                      && r.value.currentSoh == Max(0.0, Min(1.0, model.value(x).value)) * 100.0
  {
    if !Truthy(busId) then Err(NoBusId)
    else if !(features.List? && features.items != []) then Err(NoFeatures)
    else if model.None? then Err(ModelUnavailable)
    else
      match FeatureRow(features.items)
      case None => Err(PredictionFailed)
      case Some(x) =>
        match model.value(x)
        case None => Err(PredictionFailed)
        case Some(raw) =>
          var soh := Max(0.0, Min(1.0, raw));
          var sohPercent := soh * 100.0;
          assert Trunc(sohPercent * 1.2) <= 120 by {
            assert sohPercent * 1.2 <= 120.0;
          }
          Ok(MaintenanceRecord(
            busId,
            sohPercent,
            1.0 - soh,
            Trunc(sohPercent * 1.2),
            ComputeStatus(sohPercent),
            Or(lastService, Str("Unknown")),
            NextService(now, sohPercent),
            now))
  }

  /** The remaining useful life follows the health percentage: a healthier
      battery never has a shorter predicted life. */
  lemma RulMonotone(a: real, b: real)
    requires 0.0 <= a <= b
    ensures Trunc(a * 1.2) <= Trunc(b * 1.2)
  {
  }

  /** Of two successful predictions, the healthier bus never gets the shorter
      remaining useful life. */
  lemma PredictedRulMonotone(bus1: Value, features1: Value, last1: Value,
                             bus2: Value, features2: Value, last2: Value,
                             model: Option<seq<real> -> Option<real>>, now: DateTime)
    requires PredictMaintenanceForBus(bus1, features1, last1, model, now).Ok?
    requires PredictMaintenanceForBus(bus2, features2, last2, model, now).Ok?
    requires PredictMaintenanceForBus(bus1, features1, last1, model, now).value.currentSoh
             <= PredictMaintenanceForBus(bus2, features2, last2, model, now).value.currentSoh
    ensures PredictMaintenanceForBus(bus1, features1, last1, model, now).value.predictedRul
            <= PredictMaintenanceForBus(bus2, features2, last2, model, now).value.predictedRul
  {
    RulMonotone(PredictMaintenanceForBus(bus1, features1, last1, model, now).value.currentSoh,
                PredictMaintenanceForBus(bus2, features2, last2, model, now).value.currentSoh);
  }

  // --------------------------------------------------------------
  // get_maintenance_analytics
  // --------------------------------------------------------------

  /** One entry of the analytics' "records" list. */
  datatype Row = Row(busId: Value, lastService: Value, nextService: Value, status: Status, currentSoh: real, predictedRul: Value)

  datatype Analytics = Analytics(upcomingServices: nat, activeAlerts: nat, avgBatteryHealth: Option<real>, records: seq<Row>)

  /** current_soh is an int, a float or a bool. */
  predicate HasNumericSoh(r: Record)
  {
    IsNumber(Get(r, "current_soh", Null))
  }

  function SohOf(r: Record): real
    requires HasNumericSoh(r)
  {
    NumberOf(Get(r, "current_soh", Null))
  }

  /** The normalised entry of a record with a numeric current_soh. */
  function RowOf(r: Record): Row
    requires HasNumericSoh(r)
  {
    Row(Get(r, "bus_id", Null), Get(r, "last_service", Str("—")), Get(r, "next_service", Str("—")),
        ComputeStatus(SohOf(r)), SohOf(r), Get(r, "predicted_rul", Null))
  }

  /** soh_values: the numeric healths, in record order. */
  function Sohs(records: seq<Record>): (xs: seq<real>)
    ensures |xs| <= |records|
  {
    if records == [] then []
    else
      var last := records[|records| - 1];
      Sohs(records[..|records| - 1]) + (if HasNumericSoh(last) then [SohOf(last)] else [])
  }

  /** normalized_records. */
  function Rows(records: seq<Record>): (rows: seq<Row>)
    ensures |rows| == |Sohs(records)|
  {
    if records == [] then []
    else
      var last := records[|records| - 1];
      Rows(records[..|records| - 1]) + (if HasNumericSoh(last) then [RowOf(last)] else [])
  }

  /** How many of xs lie below the bound. */
  function CountBelow(xs: seq<real>, bound: real): (n: nat)
    ensures n <= |xs|
  {
    if xs == [] then 0
    else CountBelow(xs[..|xs| - 1], bound) + (if xs[|xs| - 1] < bound then 1 else 0)
  }

  function Sum(xs: seq<real>): real
  {
    if xs == [] then 0.0 else Sum(xs[..|xs| - 1]) + xs[|xs| - 1]
  }

  /** What get_maintenance_analytics returns: Warning and Critical both call for
      a service (health below 80), Critical alone raises an alert (below 60),
      the average is over the numeric healths only. */
  function MaintenanceAnalytics(records: seq<Record>): Analytics
  {
    var xs := Sohs(records);
    Analytics(CountBelow(xs, 80.0), CountBelow(xs, 60.0),
              if xs == [] then None else Some(Sum(xs) / (|xs| as real)), Rows(records))
  }

  /** get_maintenance_analytics: a failed find() (fetched is None) is the
      "Database aggregation failed" reply; otherwise the loop over the fetched
      records. */
  method GetMaintenanceAnalytics(fetched: Option<seq<Record>>) returns (r: Result<Analytics, Fault>)
    ensures fetched.None? <==> r == Err(DatabaseError)
    ensures fetched.Some? ==> r == Ok(MaintenanceAnalytics(fetched.value))
    ensures fetched == Some([]) ==> r == Ok(Analytics(0, 0, None, []))
  {
    if fetched.None? {
      return Err(DatabaseError);
    }
    var records := fetched.value;
    if records == [] {
      return Ok(Analytics(0, 0, None, []));
    }
    var upcoming := 0;
    var alerts := 0;
    var sohValues: seq<real> := [];
    var normalized: seq<Row> := [];
    for k := 0 to |records|
      invariant sohValues == Sohs(records[..k])
      invariant normalized == Rows(records[..k])
      invariant upcoming == CountBelow(sohValues, 80.0)
      invariant alerts == CountBelow(sohValues, 60.0)
    {
      var r := records[k];
      assert records[..k + 1][..k] == records[..k];
      if !HasNumericSoh(r) {
        continue;
      }
      var soh := NumberOf(Get(r, "current_soh", Null));
      var status := ComputeStatus(soh);
      if status == Warning || status == Critical {
        upcoming := upcoming + 1;
      }
      if status == Critical {
        alerts := alerts + 1;
      }
      assert (sohValues + [soh])[..|sohValues|] == sohValues;
      sohValues := sohValues + [soh];
      normalized := normalized + [Row(Get(r, "bus_id", Null), Get(r, "last_service", Str("—")),
                                      Get(r, "next_service", Str("—")), status, soh, Get(r, "predicted_rul", Null))];
    }
    assert records[..|records|] == records;
    var avg: Option<real> := None;
    if sohValues != [] {
      avg := Some(Sum(sohValues) / (|sohValues| as real));
    }
    r := Ok(Analytics(upcoming, alerts, avg, normalized));
  }

  /** Fewer values lie below a lower bound. */
  lemma {:induction false} CountBelowMonotone(xs: seq<real>, lo: real, hi: real)
    requires lo <= hi
    ensures CountBelow(xs, lo) <= CountBelow(xs, hi)
  {
    if xs != [] {
      CountBelowMonotone(xs[..|xs| - 1], lo, hi);
    }
  }

  /** Every alert is also an upcoming service, and only numeric records are
      counted. */
  lemma AlertsWithinUpcoming(records: seq<Record>)
    ensures var a := MaintenanceAnalytics(records);
            a.activeAlerts <= a.upcomingServices <= |a.records| <= |records|
  {
    CountBelowMonotone(Sohs(records), 60.0, 80.0);
  }

  /** A sum of values in [lo, hi] lies between n·lo and n·hi. */
  lemma {:induction false} SumBetween(xs: seq<real>, lo: real, hi: real)
    requires forall i :: 0 <= i < |xs| ==> lo <= xs[i] <= hi
    ensures (|xs| as real) * lo <= Sum(xs) <= (|xs| as real) * hi
  {
    if xs != [] {
      SumBetween(xs[..|xs| - 1], lo, hi);
    }
  }

  /** The numeric healths are exactly the numeric current_soh fields: each value
      in soh_values comes from some record. */
  lemma {:induction false} SohsFromRecords(records: seq<Record>, i: nat)
    requires i < |Sohs(records)|
    ensures exists j :: 0 <= j < |records| && HasNumericSoh(records[j]) && SohOf(records[j]) == Sohs(records)[i]
  {
    var init := records[..|records| - 1];
    var last := records[|records| - 1];
    if i < |Sohs(init)| {
      SohsFromRecords(init, i);
      var j :| 0 <= j < |init| && HasNumericSoh(init[j]) && SohOf(init[j]) == Sohs(init)[i];
      assert records[j] == init[j];
    } else {
      assert HasNumericSoh(last) && Sohs(records)[i] == SohOf(last);
    }
  }

  /** With every numeric health in [lo, hi] (for instance the [0, 100] that
      predict_maintenance_for_bus stores), the average lies in [lo, hi]. */
  lemma AverageWithinBounds(records: seq<Record>, lo: real, hi: real)
    requires forall j :: 0 <= j < |records| && HasNumericSoh(records[j]) ==> lo <= SohOf(records[j]) <= hi
    ensures var a := MaintenanceAnalytics(records);
            a.avgBatteryHealth.Some? ==> lo <= a.avgBatteryHealth.value <= hi
    ensures MaintenanceAnalytics(records).avgBatteryHealth.None? <==> Sohs(records) == []
  {
    var xs := Sohs(records);
    if xs != [] {
      SohsWithin(records, lo, hi);
      MeanWithin(xs, lo, hi);
      assert MaintenanceAnalytics(records).avgBatteryHealth == Some(Sum(xs) / (|xs| as real));
    }
  }

  lemma SohsWithin(records: seq<Record>, lo: real, hi: real)
    requires forall j :: 0 <= j < |records| && HasNumericSoh(records[j]) ==> lo <= SohOf(records[j]) <= hi
    ensures forall i :: 0 <= i < |Sohs(records)| ==> lo <= Sohs(records)[i] <= hi
  {
    forall i | 0 <= i < |Sohs(records)|
      ensures lo <= Sohs(records)[i] <= hi
    {
      SohsFromRecords(records, i);
    }
  }

  /** The mean of values in [lo, hi] lies in [lo, hi]. */
  lemma MeanWithin(xs: seq<real>, lo: real, hi: real)
    requires xs != []
    requires forall i :: 0 <= i < |xs| ==> lo <= xs[i] <= hi
    ensures lo <= Sum(xs) / (|xs| as real) <= hi
  {
    SumBetween(xs, lo, hi);
    MeanBetween(Sum(xs), |xs| as real, lo, hi);
  }

  /** s / n lies in [lo, hi] when s lies in [n·lo, n·hi]. */
  lemma MeanBetween(s: real, n: real, lo: real, hi: real)
    requires n > 0.0 && n * lo <= s <= n * hi
    ensures lo <= s / n <= hi
  {
    var q := s / n;
    assert q * n == s;
  }
}
