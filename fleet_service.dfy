/** Fleet logs and telemetry export (backend/services/fleet_service.py): the
    90/60/50 status table, the MongoDB query built from the optional bus and
    date range, and the loops that enrich each fetched record in place. The
    find/sort/limit call itself is a parameter that may fail; rounding is left
    out. */
module FleetService {
  import opened Python

  datatype FleetStatus = Good | Proper | Attention | Critical

  /** compute_status_and_issues. */
  datatype Derived = Derived(status: FleetStatus, issuesCount: nat)

  function StatusAndIssues(soh: real): (d: Derived)
    ensures d.status == Good <==> soh >= 90.0
    ensures d.status == Proper <==> 60.0 <= soh < 90.0
    ensures d.status == Attention <==> 50.0 <= soh < 60.0
    ensures d.status == Critical <==> soh < 50.0
    ensures d.issuesCount == (if soh < 60.0 then 1 else 0)
  {
    if soh >= 90.0 then Derived(Good, 0)
    else if 60.0 <= soh < 90.0 then Derived(Proper, 0)
    else if 50.0 <= soh < 60.0 then Derived(Attention, 1)
    else Derived(Critical, 1)
  }

  /** The status as the string stored in the record. */
  function StatusName(s: FleetStatus): string
  {
    match s
    case Good => "Good"
    case Proper => "Proper"
    case Attention => "Attention"
    case Critical => "Critical"
  }

  /** A lower health never gives a better status or fewer issues. */
  lemma StatusMonotone(a: real, b: real)
    requires a <= b
    ensures StatusAndIssues(a).issuesCount >= StatusAndIssues(b).issuesCount
    ensures StatusAndIssues(b).status == Critical ==> StatusAndIssues(a).status == Critical
    ensures StatusAndIssues(a).status == Good ==> StatusAndIssues(b).status == Good
  {
  }

  // --------------------------------------------------------------
  // Query construction
  // --------------------------------------------------------------

  /** The date condition on `field` for an optional range; a datetime is always
      truthy, so "given" is "present". */
  function DateCondition(start: Option<DateTime>, end: Option<DateTime>): (c: Option<Value>)
    ensures c.None? <==> start.None? && end.None?
    ensures c.Some? ==> c.value.Dict?
                        && ("$gte" in c.value.entries <==> start.Some?)
                        && ("$lte" in c.value.entries <==> end.Some?)
                        && (start.Some? ==> c.value.entries["$gte"] == Date(start.value))
                        && (end.Some? ==> c.value.entries["$lte"] == Date(end.value))
                        && c.value.entries.Keys <= {"$gte", "$lte"}
  {
    if start.Some? && end.Some? then Some(Dict(map["$gte" := Date(start.value), "$lte" := Date(end.value)]))
    else if start.Some? then Some(Dict(map["$gte" := Date(start.value)]))
    else if end.Some? then Some(Dict(map["$lte" := Date(end.value)]))
    else None
  }

  /** The query of get_fleet_logs: bus_id only when truthy, maintenance_due only
      when a bound is given. */
  function FleetLogsQuery(busId: Value, start: Option<DateTime>, end: Option<DateTime>): (q: Record)
    ensures "bus_id" in q <==> Truthy(busId)
    ensures "bus_id" in q ==> q["bus_id"] == busId
    ensures "maintenance_due" in q <==> start.Some? || end.Some?
    ensures "maintenance_due" in q ==> Some(q["maintenance_due"]) == DateCondition(start, end)
    ensures q.Keys <= {"bus_id", "maintenance_due"}
  {
    var q: Record := if Truthy(busId) then map["bus_id" := busId] else map[];
    match DateCondition(start, end)
    case None => q
    case Some(c) => q["maintenance_due" := c]
  }

  /** The query of get_telemetry_for_csv: a falsy bus_id raises ValueError. */
  function TelemetryQuery(busId: Value, start: Option<DateTime>, end: Option<DateTime>): (r: Result<Record, Fault>)
    ensures r.Err? <==> !Truthy(busId)
    ensures r.Err? ==> r.error == BusIdRequired
    ensures r.Ok? ==> "bus_id" in r.value && r.value["bus_id"] == busId
                      && ("timestamp" in r.value <==> start.Some? || end.Some?)
                      && ("timestamp" in r.value ==> Some(r.value["timestamp"]) == DateCondition(start, end))
                      && r.value.Keys <= {"bus_id", "timestamp"}
  {
    if !Truthy(busId) then Err(BusIdRequired)
    else
      var q := map["bus_id" := busId];
      match DateCondition(start, end)
      case None => Ok(q)
      case Some(c) => Ok(q["timestamp" := c])
  }

  // --------------------------------------------------------------
  // get_fleet_logs enrichment
  // --------------------------------------------------------------

  /** float(r.get("predicted_soh", 0.0)) does not raise. */
  predicate SohConvertible(r: Record)
  {
    ToFloat(Get(r, "predicted_soh", Float(0.0))).Some?
  }

  /** The health percentage of a stored fraction. */
  function SohPercent(r: Record): real
    requires SohConvertible(r)
  {
    ToFloat(Get(r, "predicted_soh", Float(0.0))).value * 100.0
  }

  /** One fleet-log row after enrichment: health as a percentage, the due date
      formatted (or "--"), issues defaulted to [], status and issue count
      derived from the percentage; every other key kept. */
  function EnrichedLog(r: Record): Record
    requires SohConvertible(r)
  {
    var soh := SohPercent(r);
    var r1 := r["predicted_soh" := Float(soh)];
    var due := if "maintenance_due" in r1 && r1["maintenance_due"].Date?
               then DateText(r1["maintenance_due"].at, "%Y-%m-%d %H:%M:%S") else Str("--");
    var r2 := r1["maintenance_due" := due];
    var r3 := r2["issues" := Get(r2, "issues", List([]))];
    var derived := StatusAndIssues(soh);
    r3["status" := Str(StatusName(derived.status))]["issues_count" := Int(derived.issuesCount)]
  }

  /** An enriched row keeps every key it had and gains the five derived ones:
      the health as a percentage, the due date formatted or "--", the issues
      list (empty when absent), and the status and issue count of the
      percentage. */
  lemma EnrichedLogFacts(r: Record)
    requires SohConvertible(r)
    ensures var e := EnrichedLog(r);
            && e.Keys == r.Keys + {"predicted_soh", "maintenance_due", "issues", "status", "issues_count"}
            && (forall k :: k in r && k !in {"predicted_soh", "maintenance_due", "issues", "status", "issues_count"} ==> e[k] == r[k])
            && e["predicted_soh"] == Float(SohPercent(r))
            && e["maintenance_due"] == (if "maintenance_due" in r && r["maintenance_due"].Date?
                                        then DateText(r["maintenance_due"].at, "%Y-%m-%d %H:%M:%S") else Str("--"))
            && e["issues"] == (if "issues" in r then r["issues"] else List([]))
            && e["status"] == Str(StatusName(StatusAndIssues(SohPercent(r)).status))
            && e["issues_count"] == Int(StatusAndIssues(SohPercent(r)).issuesCount)
  {
  }

  /** The body of the `for r in records` loop of get_fleet_logs, on one
      record; None when float() raises. */
  method EnrichLog(r0: Record) returns (e: Option<Record>)
    ensures e.Some? <==> SohConvertible(r0)
    ensures e.Some? ==> e.value == EnrichedLog(r0)
  {
    var r := r0;
    var raw := ToFloat(Get(r, "predicted_soh", Float(0.0)));
    if raw.None? {
      return None;
    }
    var soh := raw.value * 100.0;
    r := r["predicted_soh" := Float(soh)];
    assert soh == SohPercent(r0);
    var due: Value;
    if "maintenance_due" in r && r["maintenance_due"].Date? {
      due := DateText(r["maintenance_due"].at, "%Y-%m-%d %H:%M:%S");
    } else {
      due := Str("--");
    }
    r := r["maintenance_due" := due];
    ghost var r1 := r0["predicted_soh" := Float(SohPercent(r0))];
    assert r == r1["maintenance_due" := due];
    r := r["issues" := Get(r, "issues", List([]))];
    var derived := StatusAndIssues(soh);
    r := r["status" := Str(StatusName(derived.status))];
    r := r["issues_count" := Int(derived.issuesCount)];
    e := Some(r);
  }

  /** The `for r in records` loop of get_fleet_logs. A health that float()
      rejects raises, leaving the rows before it enriched and the rest as
      fetched. */
  method EnrichFleetLogs(records: array<Record>) returns (fault: Option<Fault>)
    modifies records
    ensures fault.None? <==> forall i :: 0 <= i < records.Length ==> SohConvertible(old(records[i]))
    ensures fault.None? ==> forall i :: 0 <= i < records.Length ==> records[i] == EnrichedLog(old(records[i]))
    ensures fault.Some? ==>
              && fault.value == NotNumeric("predicted_soh")
              && exists k :: 0 <= k < records.Length && !SohConvertible(old(records[k]))
                   && (forall i :: 0 <= i < k ==> SohConvertible(old(records[i])) && records[i] == EnrichedLog(old(records[i])))
                   && (forall i :: k <= i < records.Length ==> records[i] == old(records[i]))
  {
    for k := 0 to records.Length
      invariant forall i :: 0 <= i < k ==> SohConvertible(old(records[i])) && records[i] == EnrichedLog(old(records[i]))
      invariant forall i :: k <= i < records.Length ==> records[i] == old(records[i])
    {
      var e := EnrichLog(records[k]);
      if e.None? {
        return Some(NotNumeric("predicted_soh"));
      }
      records[k] := e.value;
    }
    fault := None;
  }

  /** get_fleet_logs: the query, the fetch (None when MongoDB raises), the
      enrichment. */
  method GetFleetLogs(busId: Value, limit: int, start: Option<DateTime>, end: Option<DateTime>,
                      fetch: (Record, int) -> Option<seq<Record>>) returns (r: Result<seq<Record>, Fault>)
    ensures fetch(FleetLogsQuery(busId, start, end), limit).None? ==> r == Err(DatabaseError)
    ensures r.Ok? ==>
              var fetched := fetch(FleetLogsQuery(busId, start, end), limit);
              && fetched.Some? && |r.value| == |fetched.value|
              && (forall i :: 0 <= i < |fetched.value| ==> SohConvertible(fetched.value[i]))
              && (forall i :: 0 <= i < |fetched.value| ==> r.value[i] == EnrichedLog(fetched.value[i]))
    ensures r.Err? && fetch(FleetLogsQuery(busId, start, end), limit).Some? ==>
              r == Err(NotNumeric("predicted_soh"))
              && exists i :: 0 <= i < |fetch(FleetLogsQuery(busId, start, end), limit).value|
                             && !SohConvertible(fetch(FleetLogsQuery(busId, start, end), limit).value[i])
  {
    var query := FleetLogsQuery(busId, start, end);
    var fetched := fetch(query, limit);
    if fetched.None? {
      return Err(DatabaseError);
    }
    var rows := fetched.value;
    var records := new Record[|rows|](i requires 0 <= i < |rows| => rows[i]);
    assert records[..] == rows;
    var fault := EnrichFleetLogs(records);
    if fault.Some? {
      return Err(fault.value);
    }
    r := Ok(records[..]);
  }

  // --------------------------------------------------------------
  // get_telemetry_for_csv enrichment
  // --------------------------------------------------------------

  /** The fields converted to float before export. */
  const NumericFields: seq<string> := ["soc", "predicted_soh", "voltage", "current", "temperature",
                                       "ambient_temperature", "internal_resistance", "action_current", "action_voltage"]

  /** float(v), or 0.0 when float() raises. */
  function FloatOrZero(v: Value): real
  {
    match ToFloat(v)
    case Some(x) => x
    case None => 0.0
  }

  /** Each listed field that is present becomes a float (0.0 when it does not
      convert); absent fields stay absent, other keys are kept. */
  function ConvertFields(r: Record, fields: seq<string>): Record
  {
    if fields == [] then r
    else
      var f := fields[0];
      ConvertFields(if f in r then r[f := Float(FloatOrZero(r[f]))] else r, fields[1..])
  }

  lemma {:induction false} ConvertFieldsFacts(r: Record, fields: seq<string>)
    ensures var c := ConvertFields(r, fields);
            && c.Keys == r.Keys
            && (forall k :: k in r && k !in fields ==> c[k] == r[k])
            && (forall i :: 0 <= i < |fields| && fields[i] in r ==> c[fields[i]] == Float(FloatOrZero(r[fields[i]])))
  {
    if fields != [] {
      var f := fields[0];
      var r' := if f in r then r[f := Float(FloatOrZero(r[f]))] else r;
      ConvertFieldsFacts(r', fields[1..]);
      assert forall i :: 1 <= i < |fields| ==> fields[i] == fields[1..][i - 1];
    }
  }

  /** One telemetry row after enrichment: the numeric fields converted, then the
      status and issue count from the health percentage, or from 0 (Critical)
      when the row has no predicted_soh. */
  function TelemetryRow(r: Record): Record
  {
    var c := ConvertFields(r, NumericFields);
    var soh := if "predicted_soh" in c then FloatOrZero(Get(c, "predicted_soh", Float(0.0))) * 100.0 else 0.0;
    var derived := StatusAndIssues(soh);
    c["status" := Str(StatusName(derived.status))]["issues_count" := Int(derived.issuesCount)]
  }

  /** The inner `for field in numeric_fields` loop. */
  method ConvertNumericFields(r: Record) returns (c: Record)
    ensures c == ConvertFields(r, NumericFields)
  {
    c := r;
    for j := 0 to |NumericFields|
      invariant ConvertFields(c, NumericFields[j..]) == ConvertFields(r, NumericFields)
    {
      var field := NumericFields[j];
      assert NumericFields[j..][0] == field && NumericFields[j..][1..] == NumericFields[j + 1..];
      if field in c {
        match ToFloat(c[field]) {
          case Some(x) => c := c[field := Float(x)];
          case None => c := c[field := Float(0.0)];
        }
      }
    }
  }

  /** The body of the `for r in records` loop of get_telemetry_for_csv, on one
      record. */
  method EnrichTelemetryRow(r0: Record) returns (t: Record)
    ensures t == TelemetryRow(r0)
  {
    var r := ConvertNumericFields(r0);
    var soh := 0.0;
    if "predicted_soh" in r {
      soh := FloatOrZero(Get(r, "predicted_soh", Float(0.0))) * 100.0;
    }
    var derived := StatusAndIssues(soh);
    r := r["status" := Str(StatusName(derived.status))];
    t := r["issues_count" := Int(derived.issuesCount)];
  }

  /** The `for r in records` loop of get_telemetry_for_csv; it never raises. */
  method EnrichTelemetry(records: array<Record>)
    modifies records
    ensures forall i :: 0 <= i < records.Length ==> records[i] == TelemetryRow(old(records[i]))
  {
    for k := 0 to records.Length
      invariant forall i :: 0 <= i < k ==> records[i] == TelemetryRow(old(records[i]))
      invariant forall i :: k <= i < records.Length ==> records[i] == old(records[i])
    {
      assert records[k] == old(records[k]);
      var t := EnrichTelemetryRow(records[k]);
      records[k] := t;
    }
  }

  /** Every numeric field of an exported row that is present is a float: the
      value float() gives, or 0.0 where float() raises; a row without a health
      value is Critical with one issue. */
  lemma TelemetryRowFacts(r: Record)
    ensures var t := TelemetryRow(r);
            && t.Keys == r.Keys + {"status", "issues_count"}
            && (forall i :: 0 <= i < |NumericFields| && NumericFields[i] in r ==>
                  t[NumericFields[i]] == Float(FloatOrZero(r[NumericFields[i]])))
            && ("predicted_soh" !in r ==> t["status"] == Str("Critical") && t["issues_count"] == Int(1))
            && ("predicted_soh" in r ==>
                  t["status"] == Str(StatusName(StatusAndIssues(FloatOrZero(r["predicted_soh"]) * 100.0).status)))
  {
    TelemetryRowFields(r);
    TelemetryRowStatus(r);
  }

  /** The exported row is the converted record plus the two derived fields. */
  lemma TelemetryRowShape(r: Record)
    ensures var c := ConvertFields(r, NumericFields);
            var soh := if "predicted_soh" in c then FloatOrZero(Get(c, "predicted_soh", Float(0.0))) * 100.0 else 0.0;
            TelemetryRow(r) == c["status" := Str(StatusName(StatusAndIssues(soh).status))]
                                ["issues_count" := Int(StatusAndIssues(soh).issuesCount)]
  {
  }

  lemma TelemetryRowFields(r: Record)
    ensures var t := TelemetryRow(r);
            && t.Keys == r.Keys + {"status", "issues_count"}
            && (forall i :: 0 <= i < |NumericFields| && NumericFields[i] in r ==>
                  t[NumericFields[i]] == Float(FloatOrZero(r[NumericFields[i]])))
  {
    ConvertFieldsFacts(r, NumericFields);
    TelemetryRowShape(r);
    assert forall i :: 0 <= i < |NumericFields| ==> NumericFields[i] != "status" && NumericFields[i] != "issues_count";
  }

  lemma TelemetryRowStatus(r: Record)
    ensures var t := TelemetryRow(r);
            && ("predicted_soh" !in r ==> t["status"] == Str("Critical") && t["issues_count"] == Int(1))
            && ("predicted_soh" in r ==>
                  t["status"] == Str(StatusName(StatusAndIssues(FloatOrZero(r["predicted_soh"]) * 100.0).status)))
  {
    var c := ConvertFields(r, NumericFields);
    ConvertFieldsFacts(r, NumericFields);
    TelemetryRowShape(r);
    assert NumericFields[1] == "predicted_soh";
    if "predicted_soh" in r {
      var x := FloatOrZero(r["predicted_soh"]);
      assert Get(c, "predicted_soh", Float(0.0)) == Float(x);
      assert ToFloat(Float(x)) == Some(x);
    }
  }

  /** get_telemetry_for_csv: refuse a falsy bus_id before any fetch, then
      fetch (None when MongoDB raises) and enrich. */
  method GetTelemetryForCsv(busId: Value, limit: int, start: Option<DateTime>, end: Option<DateTime>,
                            fetch: (Record, int) -> Option<seq<Record>>) returns (r: Result<seq<Record>, Fault>)
    ensures !Truthy(busId) ==> r == Err(BusIdRequired)
    ensures Truthy(busId) ==>
              var fetched := fetch(TelemetryQuery(busId, start, end).value, limit);
              && (fetched.None? ==> r == Err(DatabaseError))
              && (fetched.Some? ==> r.Ok? && |r.value| == |fetched.value|
                                    && forall i :: 0 <= i < |fetched.value| ==> r.value[i] == TelemetryRow(fetched.value[i]))
  {
    var query := TelemetryQuery(busId, start, end);
    if query.Err? {
      return Err(query.error);
    }
    var fetched := fetch(query.value, limit);
    if fetched.None? {
      return Err(DatabaseError);
    }
    var rows := fetched.value;
    var records := new Record[|rows|](i requires 0 <= i < |rows| => rows[i]);
    EnrichTelemetry(records);
    r := Ok(records[..]);
  }
}
