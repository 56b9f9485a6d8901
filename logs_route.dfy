/** The fleet-logs endpoint (backend/routes/logs.py, GET /api/logs): the query
    arguments and their checks, the CSV export path, the JSON summary path with
    its status-derivation loop, and the record normalisation both paths share.
    Flask's request and response objects are left out: the query string is an
    `Args` value and the reply a `LogsReply`. ISO date parsing and the two
    MongoDB fetches are parameters. */
module LogsRoute {
  import opened Python
  import opened FleetService

  // ---------------------------------------------------------------
  // Query arguments
  // ---------------------------------------------------------------

  /** request.args: each argument is absent or a string. */
  datatype Args = Args(busId: Option<string>, limit: Option<string>, exportArg: Option<string>,
                       start: Option<string>, end: Option<string>)

  /** A query argument that is present and not empty. */
  predicate Supplied(arg: Option<string>)
  {
    arg.Some? && arg.value != ""
  }

  /** parse_iso_date: nothing for an absent or empty argument, otherwise
      datetime.fromisoformat, which `iso` stands for (None where it raises). */
  function ParseIsoDate(arg: Option<string>, iso: string -> Option<DateTime>): (d: Option<DateTime>)
    ensures !Supplied(arg) ==> d.None?
  {
    if !Supplied(arg) then None else iso(arg.value)
  }

  /** request.args.get("limit", 100, type=int): the default when the argument
      is absent or int() rejects it. */
  function RequestedLimit(arg: Option<string>): int
  {
    match arg
    case None => 100
    case Some(text) =>
      match ParseInt(text)
      case None => 100
      case Some(n) => n
  }

  /** min(max(limit, 1), 1000). */
  function ClampLimit(n: int): (c: int)
    ensures 1 <= c <= 1000
    ensures 1 <= n <= 1000 ==> c == n
    ensures n < 1 ==> c == 1
    ensures n > 1000 ==> c == 1000
  {
    if n < 1 then 1 else if n > 1000 then 1000 else n
  }

  /** A limit written as decimal text is the limit used, once clamped; anything
      int() rejects gives 100. */
  lemma LimitFromText(n: int, text: string)
    ensures ClampLimit(RequestedLimit(Some(IntText(n)))) == ClampLimit(n)
    ensures ParseInt(text).None? ==> ClampLimit(RequestedLimit(Some(text))) == 100
  {
    IntTextRoundTrip(n);
  }

  /** request.args.get("export", "false").lower() == "true". */
  function ExportRequested(arg: Option<string>): bool
  {
    Lower(if arg.Some? then arg.value else "false") == "true"
  }

  /** Why the endpoint refuses. */
  datatype LogsError =
    | InvalidStart
    | InvalidEnd
    | StartAfterEnd
    | BusIdRequiredForExport
    | NoTelemetry
    | FetchFailed

  function StatusOf(e: LogsError): int
  {
    match e
    case InvalidStart => 400
    case InvalidEnd => 400
    case StartAfterEnd => 400
    case BusIdRequiredForExport => 400
    case NoTelemetry => 404
    case FetchFailed => 500
  }

  /** The checked arguments. */
  datatype Request = Request(busId: Option<string>, limit: int, exportCsv: bool,
                             start: Option<DateTime>, end: Option<DateTime>)

  /** The argument checks, in order: a supplied start that does not parse, a
      supplied end that does not parse, a start after the end. */
  function Validate(args: Args, iso: string -> Option<DateTime>): (r: Result<Request, LogsError>)
    ensures Supplied(args.start) && iso(args.start.value).None? ==> r == Err(InvalidStart)
    ensures (!(Supplied(args.start) && iso(args.start.value).None?) && Supplied(args.end) && iso(args.end.value).None?)
              ==> r == Err(InvalidEnd)
    ensures r.Err? ==> r.error in {InvalidStart, InvalidEnd, StartAfterEnd}
    ensures r.Ok? ==> 1 <= r.value.limit <= 1000
    ensures r.Ok? ==> r.value.start == ParseIsoDate(args.start, iso) && r.value.end == ParseIsoDate(args.end, iso)
    ensures r.Ok? ==> (r.value.start.Some? <==> Supplied(args.start))
    ensures r.Ok? ==> (r.value.end.Some? <==> Supplied(args.end))
    ensures r.Ok? ==> r.value.busId == args.busId && r.value.limit == ClampLimit(RequestedLimit(args.limit))
                      && r.value.exportCsv == ExportRequested(args.exportArg)
    ensures r.Ok? && r.value.start.Some? && r.value.end.Some? ==> r.value.start.value.ordinal <= r.value.end.value.ordinal
    ensures r == Err(StartAfterEnd) <==>
              && Supplied(args.start) && iso(args.start.value).Some?
              && Supplied(args.end) && iso(args.end.value).Some?
              && iso(args.start.value).value.ordinal > iso(args.end.value).value.ordinal
  {
    var limit := ClampLimit(RequestedLimit(args.limit));
    var exportCsv := ExportRequested(args.exportArg);
    var startDt := ParseIsoDate(args.start, iso);
    var endDt := ParseIsoDate(args.end, iso);
    if Supplied(args.start) && startDt.None? then Err(InvalidStart)
    else if Supplied(args.end) && endDt.None? then Err(InvalidEnd)
    else if startDt.Some? && endDt.Some? && startDt.value.ordinal > endDt.value.ordinal then Err(StartAfterEnd)
    else Ok(Request(args.busId, limit, exportCsv, startDt, endDt))
  }

  /** The bus_id argument as the service sees it. */
  function BusValue(busId: Option<string>): (v: Value)
    ensures Truthy(v) <==> Supplied(busId)
  {
    if busId.Some? then Str(busId.value) else Null
  }

  // ---------------------------------------------------------------
  // normalize_record
  // ---------------------------------------------------------------

  /** The CSV columns, in the order normalize_record builds them. */
  const CsvColumns: seq<string> := [
    "bus_id", "timestamp", "soc", "soh", "terminal_voltage", "battery_current", "battery_temp",
    "ambient_temp", "internal_resistance", "action_current", "action_voltage", "dT_dt", "dV_dt",
    "soc_delta", "thermal_stress_index", "aging_indicator", "charging_efficiency", "charging_time",
    "cycle_degradation", "over_temp_flag", "over_voltage_flag", "balancing_time", "hour", "dayofweek",
    "maintenance_due", "issues", "status"]

  /** The columns normalised with safe_float straight from the field of the same
      name. */
  const FloatColumns: seq<string> := [
    "soc", "terminal_voltage", "battery_current", "battery_temp", "ambient_temp", "internal_resistance",
    "action_current", "action_voltage", "dT_dt", "dV_dt", "soc_delta", "thermal_stress_index",
    "aging_indicator", "charging_efficiency", "charging_time", "cycle_degradation", "balancing_time"]

  /** The columns normalize_record fills from the record in other ways. */
  const OtherColumns: seq<string> := [
    "bus_id", "timestamp", "soh", "over_temp_flag", "over_voltage_flag", "hour", "dayofweek",
    "maintenance_due", "issues", "status"]

  /** The CSV columns are the float columns and the others, which are
      distinct. */
  lemma ColumnsSplit()
    ensures (set c | c in CsvColumns) == (set c | c in OtherColumns) + (set c | c in FloatColumns)
    ensures forall c :: c in OtherColumns ==> c !in FloatColumns
  {
    ColumnsCover();
    ColumnsDisjoint();
  }

  lemma ColumnsCover()
    ensures (set c | c in CsvColumns) == (set c | c in OtherColumns) + (set c | c in FloatColumns)
  {
  }

  lemma ColumnsDisjoint()
    ensures forall c :: c in OtherColumns ==> c !in FloatColumns
  {
  }

  /** safe_float: None gives 0.0, and so does a value float() rejects. */
  function SafeFloat(v: Value): real
  {
    if v.Null? then 0.0
    else match ToFloat(v)
         case None => 0.0
         case Some(x) => x
  }

  function SafeFloats(rec: Record, columns: seq<string>): (m: Record)
    ensures m.Keys == set c | c in columns
  {
    if columns == [] then map[]
    else
      var c := columns[|columns| - 1];
      SafeFloats(rec, columns[..|columns| - 1])[c := Float(SafeFloat(Get(rec, c, Null)))]
  }

  lemma {:induction false} SafeFloatsAt(rec: Record, columns: seq<string>, c: string)
    requires c in columns
    ensures SafeFloats(rec, columns)[c] == Float(SafeFloat(Get(rec, c, Null)))
  {
    var init := columns[..|columns| - 1];
    if c != columns[|columns| - 1] {
      assert c in init;
      SafeFloatsAt(rec, init, c);
    }
  }

  /** The keys normalize_record sets besides the float columns. */
  function OtherFields(rec: Record): Record
  {
    var ts := Get(rec, "timestamp", Null);
    map["bus_id" := Get(rec, "bus_id", Str("--")),
        "timestamp" := if ts.Date? then DateText(ts.at, "iso") else Get(rec, "timestamp", Str("")),
        "soh" := Float(SafeFloat(Or(Get(rec, "soh", Null), Get(rec, "predicted_soh", Null)))),
        "over_temp_flag" := Get(rec, "over_temp_flag", Int(0)),
        "over_voltage_flag" := Get(rec, "over_voltage_flag", Int(0)),
        "hour" := Get(rec, "hour", Int(0)),
        "dayofweek" := Get(rec, "dayofweek", Int(0)),
        "maintenance_due" := Or(Get(rec, "maintenance_due", Null), Str("")),
        "issues" := Get(rec, "issues", Int(0)),
        "status" := Get(rec, "status", Str("--"))]
  }

  /** normalize_record. */
  function NormalizeRecord(rec: Record): Record
  {
    OtherFields(rec) + SafeFloats(rec, FloatColumns)
  }

  /** A normalised record always has the same keys, the CSV columns. */
  lemma NormalizeRecordKeys(rec: Record)
    ensures NormalizeRecord(rec).Keys == set c | c in CsvColumns
  {
    ColumnsSplit();
    assert OtherFields(rec).Keys == set c | c in OtherColumns;
  }

  /** Every float column is the field's float value, or 0.0 where the field is
      missing, None or something float() rejects. */
  lemma NormalizeRecordFloats(rec: Record, c: string)
    requires c in FloatColumns
    ensures NormalizeRecord(rec)[c] == Float(if ToFloat(Get(rec, c, Null)).Some? then ToFloat(Get(rec, c, Null)).value else 0.0)
  {
    SafeFloatsAt(rec, FloatColumns, c);
  }

  /** The columns outside the float ones come from OtherFields. */
  lemma NormalizeRecordOther(rec: Record, c: string)
    requires c in OtherColumns
    ensures NormalizeRecord(rec)[c] == OtherFields(rec)[c]
  {
    ColumnsSplit();
  }

  /** bus_id and status default to "--". */
  lemma NormalizeRecordDefaults(rec: Record)
    ensures "bus_id" !in rec ==> NormalizeRecord(rec)["bus_id"] == Str("--")
    ensures "status" !in rec ==> NormalizeRecord(rec)["status"] == Str("--")
  {
    NormalizeRecordOther(rec, "bus_id");
    NormalizeRecordOther(rec, "status");
    OtherFieldsDefaults(rec);
  }

  lemma OtherFieldsDefaults(rec: Record)
    ensures OtherFields(rec)["bus_id"] == Get(rec, "bus_id", Str("--"))
    ensures OtherFields(rec)["status"] == Get(rec, "status", Str("--"))
  {
  }

  /** The health is always a float, and falls back to predicted_soh when soh
      is missing or falsy. */
  lemma NormalizeRecordSoh(rec: Record)
    ensures NormalizeRecord(rec)["soh"].Float?
    ensures !Truthy(Get(rec, "soh", Null)) && ToFloat(Get(rec, "predicted_soh", Null)).Some? ==>
              NormalizeRecord(rec)["soh"] == Float(ToFloat(Get(rec, "predicted_soh", Null)).value)
  {
    NormalizeRecordOther(rec, "soh");
  }

  function NormalizeAll(recs: seq<Record>): (out: seq<Record>)
    ensures |out| == |recs|
    ensures forall i :: 0 <= i < |recs| ==> out[i] == NormalizeRecord(recs[i])
  {
    if recs == [] then [] else NormalizeAll(recs[..|recs| - 1]) + [NormalizeRecord(recs[|recs| - 1])]
  }

  // ---------------------------------------------------------------
  // The status-derivation loop of the JSON path
  // ---------------------------------------------------------------

  /** rec.get("soh") or rec.get("predicted_soh") or 0. */
  function LogSoh(rec: Record): Value
  {
    Or(Or(Get(rec, "soh", Null), Get(rec, "predicted_soh", Null)), Int(0))
  }

  /** `soh_percent <= 1` raises TypeError unless the value is a number. */
  predicate Comparable(rec: Record)
  {
    IsNumber(LogSoh(rec))
  }

  /** A value of at most 1 is taken for a fraction and scaled to a percentage. */
  function LogPercent(x: real): (p: real)
    ensures x <= 1.0 ==> p == x * 100.0
    ensures x > 1.0 ==> p == x
  {
    if x <= 1.0 then x * 100.0 else x
  }

  /** The status and issue count written into a record, on the 90/60/50
      thresholds. */
  function LogStatus(p: real): (string, int)
  {
    if p >= 90.0 then ("Good", 0)
    else if p >= 60.0 then ("Proper", 0)
    else if p >= 50.0 then ("Attention", 1)
    else ("Critical", 1)
  }

  /** The thresholds of the endpoint are those of compute_status_and_issues. */
  lemma LogStatusMatchesFleet(p: real)
    ensures LogStatus(p).0 == StatusName(StatusAndIssues(p).status)
    ensures LogStatus(p).1 == StatusAndIssues(p).issuesCount
  {
  }

  /** A record after one pass of the loop body. */
  function WithStatus(rec: Record): Record
    requires Comparable(rec)
  {
    var s := LogStatus(LogPercent(NumberOf(LogSoh(rec))));
    rec["status" := Str(s.0)]["issues" := Int(s.1)]
  }

  /** The loop writes status and issues and nothing else; the status is the
      fleet status of the health, as a percentage. */
  lemma WithStatusFacts(rec: Record)
    requires Comparable(rec)
    ensures var w := WithStatus(rec);
            var p := LogPercent(NumberOf(LogSoh(rec)));
            && w.Keys == rec.Keys + {"status", "issues"}
            && (forall k :: k in rec && k != "status" && k != "issues" ==> w[k] == rec[k])
            && w["status"] == Str(StatusName(StatusAndIssues(p).status))
            && w["issues"] == Int(StatusAndIssues(p).issuesCount)
  {
    LogStatusMatchesFleet(LogPercent(NumberOf(LogSoh(rec))));
  }

  /** `for rec in records`: rec["status"] and rec["issues"] written in place; a
      health that cannot be compared with 1 raises, leaving the records before
      it updated and the rest as they were. */
  method DeriveStatuses(records: array<Record>) returns (fault: Option<Fault>)
    modifies records
    ensures fault.None? <==> forall i :: 0 <= i < records.Length ==> Comparable(old(records[i]))
    ensures fault.None? ==> forall i :: 0 <= i < records.Length ==> records[i] == WithStatus(old(records[i]))
    ensures fault.Some? ==>
              && fault.value == NotComparable
              && exists k :: 0 <= k < records.Length && !Comparable(old(records[k]))
                   && (forall i :: 0 <= i < k ==> Comparable(old(records[i])) && records[i] == WithStatus(old(records[i])))
                   && (forall i :: k <= i < records.Length ==> records[i] == old(records[i]))
  {
    for k := 0 to records.Length
      invariant forall i :: 0 <= i < k ==> Comparable(old(records[i])) && records[i] == WithStatus(old(records[i]))
      invariant forall i :: k <= i < records.Length ==> records[i] == old(records[i])
    {
      var rec := records[k];
      var sohPercent := LogSoh(rec);
      if !IsNumber(sohPercent) {
        return Some(NotComparable);
      }
      var x := NumberOf(sohPercent);
      if x <= 1.0 {
        x := x * 100.0;
      }
      var status: string;
      var issues: int;
      if x >= 90.0 {
        status, issues := "Good", 0;
      } else if x >= 60.0 {
        status, issues := "Proper", 0;
      } else if x >= 50.0 {
        status, issues := "Attention", 1;
      } else {
        status, issues := "Critical", 1;
      }
      records[k] := rec["status" := Str(status)]["issues" := Int(issues)];
    }
    fault := None;
  }

  /** get_fleet_logs already stores the health as a percentage, so the loop
      scales a second time any percentage of at most 1: a stored fraction of
      0.005 is Critical (0.5 %) for the service but Attention (50 %) here. */
  lemma DoubleRescale()
    ensures var r := map["predicted_soh" := Float(0.005)];
            && SohConvertible(r)
            && EnrichedLog(r)["status"] == Str("Critical")
            && Comparable(EnrichedLog(r))
            && WithStatus(EnrichedLog(r))["status"] == Str("Attention")
  {
    var r := map["predicted_soh" := Float(0.005)];
    EnrichedLogFacts(r);
    var e := EnrichedLog(r);
    assert e["predicted_soh"] == Float(0.5);
    assert "soh" !in e;
    assert LogSoh(e) == Float(0.5);
  }

  // ---------------------------------------------------------------
  // The handler
  // ---------------------------------------------------------------

  datatype LogsReply =
    | Refused(status: int, error: LogsError)
    | CsvExport(exportedBus: string, rows: seq<Record>)              // 200, text/csv
    | Summary(busId: Option<string>, limit: Option<int>, records: seq<Record>)  // 200, JSON

  /** What the CSV path answers: bus_id is required before anything is
      fetched; a failed fetch is a 500, no rows a 404, otherwise the normalised
      telemetry rows. */
  predicate ExportAnswers(busId: Option<string>, limit: int, start: Option<DateTime>, end: Option<DateTime>,
                          fetchTelemetry: (Record, int) -> Option<seq<Record>>, reply: LogsReply)
  {
    && (!Supplied(busId) ==> reply == Refused(400, BusIdRequiredForExport))
    && (reply.Refused? ==> reply.status == StatusOf(reply.error))
    && !reply.Summary?
    && (Supplied(busId) ==>
          var fetched := fetchTelemetry(TelemetryQuery(BusValue(busId), start, end).value, limit);
          && (fetched.None? ==> reply == Refused(500, FetchFailed))
          && (fetched == Some([]) ==> reply == Refused(404, NoTelemetry))
          && (fetched.Some? && fetched.value != [] ==>
                reply.CsvExport? && reply.exportedBus == busId.value && |reply.rows| == |fetched.value|
                && forall i :: 0 <= i < |fetched.value| ==> reply.rows[i] == NormalizeRecord(TelemetryRow(fetched.value[i]))))
  }

  /** Normalising the enriched rows normalises each fetched row's enrichment. */
  lemma NormalizedRows(fetched: seq<Record>, rows: seq<Record>)
    requires |rows| == |fetched| && forall i :: 0 <= i < |fetched| ==> rows[i] == TelemetryRow(fetched[i])
    ensures |NormalizeAll(rows)| == |fetched|
    ensures forall i :: 0 <= i < |fetched| ==> NormalizeAll(rows)[i] == NormalizeRecord(TelemetryRow(fetched[i]))
  {
  }

  method ExportCsv(busId: Option<string>, limit: int, start: Option<DateTime>, end: Option<DateTime>,
                   fetchTelemetry: (Record, int) -> Option<seq<Record>>) returns (reply: LogsReply)
    ensures ExportAnswers(busId, limit, start, end, fetchTelemetry, reply)
  {
    if !Supplied(busId) {
      return Refused(400, BusIdRequiredForExport);
    }
    ghost var fetched := fetchTelemetry(TelemetryQuery(BusValue(busId), start, end).value, limit);
    var rows := GetTelemetryForCsv(BusValue(busId), limit, start, end, fetchTelemetry);
    if rows.Err? {
      return Refused(500, FetchFailed);
    }
    if rows.value == [] {
      return Refused(404, NoTelemetry);
    }
    NormalizedRows(fetched.value, rows.value);
    reply := CsvExport(busId.value, NormalizeAll(rows.value));
  }

  /** What the JSON path answers: fetch and enrich, an empty summary when
      nothing is found, otherwise status and issues derived in place and every
      record normalised; any exception is a 500, and a summary whenever nothing
      raises. */
  predicate SummaryAnswers(busId: Option<string>, limit: int, start: Option<DateTime>, end: Option<DateTime>,
                           fetchLogs: (Record, int) -> Option<seq<Record>>, reply: LogsReply)
  {
    var fetched := fetchLogs(FleetLogsQuery(BusValue(busId), start, end), limit);
    && (fetched.None? ==> reply == Refused(500, FetchFailed))
    && (reply.Refused? ==> reply == Refused(500, FetchFailed))
    && !reply.CsvExport?
    && (fetched == Some([]) ==> reply == Summary(busId, None, []))
    && (reply.Summary? && fetched.Some? && fetched.value != [] ==>
          reply.limit == Some(limit) && |reply.records| == |fetched.value|
          && forall i :: 0 <= i < |fetched.value| ==>
               SohConvertible(fetched.value[i]) && Comparable(EnrichedLog(fetched.value[i]))
               && reply.records[i] == NormalizeRecord(WithStatus(EnrichedLog(fetched.value[i]))))
    && ((fetched.Some? && forall i :: 0 <= i < |fetched.value| ==>
                            SohConvertible(fetched.value[i]) && Comparable(EnrichedLog(fetched.value[i])))
          ==> reply.Summary?)
  }

  method FleetSummary(busId: Option<string>, limit: int, start: Option<DateTime>, end: Option<DateTime>,
                      fetchLogs: (Record, int) -> Option<seq<Record>>) returns (reply: LogsReply)
    ensures SummaryAnswers(busId, limit, start, end, fetchLogs, reply)
  {
    var found := GetFleetLogs(BusValue(busId), limit, start, end, fetchLogs);
    if found.Err? {
      return Refused(500, FetchFailed);
    }
    var rows := found.value;
    if rows == [] {
      return Summary(busId, None, []);
    }
    var summary := SummaryRecords(rows);
    if summary.None? {
      return Refused(500, FetchFailed);
    }
    reply := Summary(busId, Some(limit), summary.value);
  }

  /** The loop and the normalisation of a non-empty summary, on the enriched
      rows: None where the loop raises. */
  method SummaryRecords(rows: seq<Record>) returns (out: Option<seq<Record>>)
    ensures out.Some? <==> forall i :: 0 <= i < |rows| ==> Comparable(rows[i])
    ensures out.Some? ==> |out.value| == |rows|
                          && forall i :: 0 <= i < |rows| ==> out.value[i] == NormalizeRecord(WithStatus(rows[i]))
  {
    var records := new Record[|rows|](i requires 0 <= i < |rows| => rows[i]);
    assert records[..] == rows;
    var fault := DeriveStatuses(records);
    if fault.Some? {
      ghost var k :| 0 <= k < |rows| && !Comparable(rows[k]);
      return None;
    }
    assert forall i :: 0 <= i < |rows| ==> records[i] == WithStatus(rows[i]);
    out := Some(NormalizeAll(records[..]));
  }

  /** fleet_logs. */
  method FleetLogs(args: Args, iso: string -> Option<DateTime>,
                   fetchLogs: (Record, int) -> Option<seq<Record>>,
                   fetchTelemetry: (Record, int) -> Option<seq<Record>>) returns (reply: LogsReply)
    ensures Validate(args, iso).Err? ==> reply == Refused(400, Validate(args, iso).error)
    ensures Validate(args, iso).Ok? && ExportRequested(args.exportArg) && !Supplied(args.busId) ==>
              reply == Refused(400, BusIdRequiredForExport)
    ensures reply.CsvExport? ==> Validate(args, iso).Ok? && ExportRequested(args.exportArg)
    ensures reply.Summary? ==> Validate(args, iso).Ok? && !ExportRequested(args.exportArg)
    ensures reply.Refused? ==> reply.status == StatusOf(reply.error)
    ensures Validate(args, iso).Ok? && ExportRequested(args.exportArg) ==>
              var q := Validate(args, iso).value;
              ExportAnswers(args.busId, q.limit, ParseIsoDate(args.start, iso), ParseIsoDate(args.end, iso), fetchTelemetry, reply)
    ensures Validate(args, iso).Ok? && !ExportRequested(args.exportArg) ==>
              var q := Validate(args, iso).value;
              SummaryAnswers(args.busId, q.limit, ParseIsoDate(args.start, iso), ParseIsoDate(args.end, iso), fetchLogs, reply)
  {
    var request := Validate(args, iso);
    if request.Err? {
      return Refused(400, request.error);
    }
    var q := request.value;
    if q.exportCsv {
      reply := ExportCsv(q.busId, q.limit, q.start, q.end, fetchTelemetry);
    } else {
      reply := FleetSummary(q.busId, q.limit, q.start, q.end, fetchLogs);
    }
  }
}
