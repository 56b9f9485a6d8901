/** The dashboard KPIs (backend/services/dashboard_service.py,
    get_dashboard_metrics): one pass over the latest reading of every bus that
    counts ready and critical buses and raises alerts, the fleet averages and the
    CO2 estimate, then the energy history. The two database aggregations are
    parameters: `None` when the aggregation raised, otherwise the documents it
    returned, already grouped and sorted. */
module DashboardService {
  import opened Python

  const CriticalSohThreshold: real := 0.7
  const LowSocThreshold: real := 20.0
  const Co2SavingsPerKm: real := 0.8
  const AvgKwhPerKm: real := 1.2

  datatype StatusCounts = StatusCounts(active: nat, charging: nat, idle: nat, critical: nat)

  datatype AlertLevel = CriticalAlert | WarningAlert

  /** The issue text of an alert: "Battery Degradation (…% SOH)", "Low Charge
      (…% SOC)", or the fallback "Check Vehicle Status". */
  datatype Issue = BatteryDegradation(sohPercent: real) | LowCharge(socPercent: real) | CheckVehicleStatus

  datatype Alert = Alert(busId: string, issue: Issue, level: AlertLevel)

  datatype HistoryPoint = HistoryPoint(timestamp: string, value: real)

  datatype Metrics = Metrics(avgSoc: real, avgSoh: real, totalEnergy: real, co2Savings: real,
                             fleetReadiness: int, statusCounts: StatusCounts,
                             alerts: seq<Alert>, energyHistory: seq<HistoryPoint>)

  /** The metrics dict as initialised, before anything is read. */
  function Defaults(): Metrics
  {
    Metrics(0.0, 0.0, 0.0, 0.0, 0, StatusCounts(0, 0, 0, 0), [], [])
  }

  // ---------------------------------------------------------------
  // One bus
  // ---------------------------------------------------------------

  /** float(log.get(key) or 0.0). */
  function FieldOrZero(log: Record, key: string): Option<real>
  {
    ToFloat(Or(Get(log, key, Null), Float(0.0)))
  }

  /** A bus as the loop sees it: SOC scaled by 10, SOH as a fraction, the
      terminal voltage standing in for energy. */
  datatype Reading = Reading(busId: string, soc: real, soh: real, energy: real)

  /** The first four statements of the loop body: three float() conversions,
      any of which may raise before a counter is touched, and str(bus_id). */
  function ParseBus(log: Record, show: Value -> string): Option<Reading>
  {
    match FieldOrZero(log, "SOC")
    case None => None
    case Some(soc) =>
      match FieldOrZero(log, "SOH")
      case None => None
      case Some(soh) =>
        match FieldOrZero(log, "energy")
        case None => None
        case Some(energy) => Some(Reading(Text(Get(log, "bus_id", Str("Unknown")), show), soc * 10.0, soh, energy))
  }

  function ParseBuses(logs: seq<Record>, show: Value -> string): (ps: seq<Option<Reading>>)
    ensures |ps| == |logs|
  {
    if logs == [] then [] else ParseBuses(logs[..|logs| - 1], show) + [ParseBus(logs[|logs| - 1], show)]
  }

  lemma {:induction false} ParseBusesAt(logs: seq<Record>, show: Value -> string, j: nat)
    requires j < |logs|
    ensures ParseBuses(logs, show)[j] == ParseBus(logs[j], show)
  {
    var init := logs[..|logs| - 1];
    if j < |init| {
      ParseBusesAt(init, show, j);
      assert init[j] == logs[j];
    }
  }

  predicate Healthy(r: Reading)
  {
    r.soh >= CriticalSohThreshold
  }

  predicate Charged(r: Reading)
  {
    r.soc >= LowSocThreshold
  }

  predicate Ready(r: Reading)
  {
    Healthy(r) && Charged(r)
  }

  /** The alert of a bus that is not ready. */
  function AlertOf(r: Reading): Alert
  {
    var issue := if !Healthy(r) then BatteryDegradation(r.soh * 100.0)
                 else if !Charged(r) then LowCharge(r.soc)
                 else CheckVehicleStatus;
    Alert(r.busId, issue, if !Healthy(r) then CriticalAlert else WarningAlert)
  }

  /** The alert of a bus that is not ready: degradation wins over low charge, the
      level is critical exactly for an unhealthy battery, and the "Check Vehicle
      Status" fallback is never used. */
  lemma AlertOfNotReady(r: Reading)
    requires !Ready(r)
    ensures AlertOf(r).busId == r.busId
    ensures AlertOf(r).level == CriticalAlert <==> r.soh < CriticalSohThreshold
    ensures AlertOf(r).issue.BatteryDegradation? <==> r.soh < CriticalSohThreshold
    ensures AlertOf(r).issue.LowCharge? <==> r.soh >= CriticalSohThreshold && r.soc < LowSocThreshold
    ensures AlertOf(r).issue != CheckVehicleStatus
  {
  }

  // ---------------------------------------------------------------
  // The loop over the buses
  // ---------------------------------------------------------------

  function ReadyCount(rs: seq<Reading>): (n: nat)
    ensures n <= |rs|
  {
    if rs == [] then 0 else ReadyCount(rs[..|rs| - 1]) + (if Ready(rs[|rs| - 1]) then 1 else 0)
  }

  /** metrics["alerts"]: one alert per bus that is not ready, in bus order. */
  function AlertsOf(rs: seq<Reading>): seq<Alert>
  {
    if rs == [] then [] else AlertsOf(rs[..|rs| - 1]) + (if Ready(rs[|rs| - 1]) then [] else [AlertOf(rs[|rs| - 1])])
  }

  function SocTotal(rs: seq<Reading>): real
  {
    if rs == [] then 0.0 else SocTotal(rs[..|rs| - 1]) + rs[|rs| - 1].soc
  }

  function SohTotal(rs: seq<Reading>): real
  {
    if rs == [] then 0.0 else SohTotal(rs[..|rs| - 1]) + rs[|rs| - 1].soh
  }

  function EnergyTotal(rs: seq<Reading>): real
  {
    if rs == [] then 0.0 else EnergyTotal(rs[..|rs| - 1]) + rs[|rs| - 1].energy
  }

  /** The counters after the buses in rs: every bus is active or critical. */
  function CountsOf(rs: seq<Reading>): StatusCounts
  {
    StatusCounts(ReadyCount(rs), 0, 0, |rs| - ReadyCount(rs))
  }

  /** int(ready / total * 100). */
  function Readiness(ready: nat, total: nat): int
    requires total > 0
  {
    Trunc((ready as real / total as real) * 100.0)
  }

  /** The KPI block computed after a loop that completed over a non-empty fleet. */
  function WithKpis(m: Metrics, rs: seq<Reading>): Metrics
    requires rs != []
  {
    var n := |rs| as real;
    var energy := EnergyTotal(rs);
    m.(avgSoc := SocTotal(rs) / n, avgSoh := (SohTotal(rs) / n) * 100.0, totalEnergy := energy,
       fleetReadiness := Readiness(ReadyCount(rs), |rs|),
       co2Savings := (energy / AvgKwhPerKm) * Co2SavingsPerKm)
  }

  // ---------------------------------------------------------------
  // The energy history
  // ---------------------------------------------------------------

  /** Two decimal digits. */
  function TwoDigits(d: nat): (t: string)
    requires d < 100
    ensures |t| == 2 && AllDigits(t) && DigitsValue(t) == d
  {
    var t := [DigitChar(d / 10), DigitChar(d % 10)];
    assert t[..|t| - 1] == t[..1] && t[..1][..0] == [];
    assert IsDigit(t[0]) && IsDigit(t[1]);
    assert AllDigits(t[..1]);
    assert DigitsValue(t[..1]) == d / 10;
    assert t[1] as int - '0' as int == d % 10;
    assert d / 10 * 10 + d % 10 == d;
    t
  }

  /** ts.strftime("%H:%M") for a time counted in seconds. */
  function HourMinute(ts: DateTime): (t: string)
    ensures |t| == 5 && t[2] == ':' && AllDigits(t[..2]) && AllDigits(t[3..])
    ensures DigitsValue(t[..2]) == (ts.ordinal % 86400) / 3600 < 24
    ensures DigitsValue(t[3..]) == (ts.ordinal % 3600) / 60 < 60
  {
    var t := TwoDigits((ts.ordinal % 86400) / 3600) + ":" + TwoDigits((ts.ordinal % 3600) / 60);
    assert t[..2] == TwoDigits((ts.ordinal % 86400) / 3600);
    assert t[3..] == TwoDigits((ts.ordinal % 3600) / 60);
    t
  }

  /** The label of a history entry: hours and minutes of a datetime, "00:00"
      for anything else. */
  function TimeLabel(ts: Value): string
  {
    if ts.Date? then HourMinute(ts.at) else "00:00"
  }

  /** One history entry; float() of the energy may raise. */
  function ParsePoint(doc: Record): Option<HistoryPoint>
  {
    match FieldOrZero(doc, "energy")
    case None => None
    case Some(energy) => Some(HistoryPoint(TimeLabel(Get(doc, "timestamp", Null)), energy))
  }

  function ParsePoints(docs: seq<Record>): (ps: seq<Option<HistoryPoint>>)
    ensures |ps| == |docs|
  {
    if docs == [] then [] else ParsePoints(docs[..|docs| - 1]) + [ParsePoint(docs[|docs| - 1])]
  }

  lemma {:induction false} ParsePointsAt(docs: seq<Record>, j: nat)
    requires j < |docs|
    ensures ParsePoints(docs)[j] == ParsePoint(docs[j])
  {
    var init := docs[..|docs| - 1];
    if j < |init| {
      ParsePointsAt(init, j);
      assert init[j] == docs[j];
    }
  }

  /** metrics["energy_history"]: the points appended before the loop ended or
      raised. */
  function History(history: Option<seq<Record>>): seq<HistoryPoint>
  {
    match history
    case None => []
    case Some(docs) => Converted(ParsePoints(docs))
  }

  // ---------------------------------------------------------------
  // get_dashboard_metrics
  // ---------------------------------------------------------------

  /** What get_dashboard_metrics returns. An exception is caught and the metrics
      dict is returned as it stands: counters and alerts of the buses already
      processed stay in it, the KPIs and the history stay at their defaults. */
  function DashboardMetrics(latest: Option<seq<Record>>, history: Option<seq<Record>>, show: Value -> string): Metrics
  {
    match latest
    case None => Defaults()
    case Some(logs) =>
      var ps := ParseBuses(logs, show);
      var rs := Converted(ps);
      var m := Defaults().(statusCounts := CountsOf(rs), alerts := AlertsOf(rs));
      if |rs| < |logs| then m
      else
        var m' := if logs == [] then m else WithKpis(m, rs);
        m'.(energyHistory := History(history))
  }

  /** The per-bus loop and the history loop. */
  method GetDashboardMetrics(latest: Option<seq<Record>>, history: Option<seq<Record>>, show: Value -> string)
    returns (m: Metrics)
    ensures m == DashboardMetrics(latest, history, show)
  {
    m := Defaults();
    if latest.None? {
      return;
    }
    var logs := latest.value;
    var complete, socTotal, sohTotal, energySum, readyCount, counts, alerts := ScanBuses(logs, show);
    m := m.(statusCounts := counts, alerts := alerts);
    if !complete {
      return;
    }
    if |logs| > 0 {
      var total := |logs| as real;
      m := m.(avgSoc := socTotal / total, avgSoh := (sohTotal / total) * 100.0, totalEnergy := energySum,
              fleetReadiness := Readiness(readyCount, |logs|));
      var estimatedKm := energySum / AvgKwhPerKm;
      m := m.(co2Savings := estimatedKm * Co2SavingsPerKm);
    }
    var points := BuildHistory(history);
    m := m.(energyHistory := points);
  }

  /** The `for log in latest_logs` loop: the running totals over the buses
      processed before a conversion raises, and whether none did. */
  method ScanBuses(logs: seq<Record>, show: Value -> string)
    returns (complete: bool, socTotal: real, sohTotal: real, energySum: real, readyCount: nat,
             counts: StatusCounts, alerts: seq<Alert>)
    ensures var rs := Processed(logs, show);
            && (complete <==> |rs| == |logs|)
            && socTotal == SocTotal(rs) && sohTotal == SohTotal(rs) && energySum == EnergyTotal(rs)
            && readyCount == ReadyCount(rs) && counts == CountsOf(rs) && alerts == AlertsOf(rs)
  {
    socTotal, sohTotal, energySum := 0.0, 0.0, 0.0;
    readyCount := 0;
    counts := StatusCounts(0, 0, 0, 0);
    alerts := [];
    var i := 0;
    ghost var ps := ParseBuses(logs, show);
    ghost var rs: seq<Reading> := [];
    while i < |logs|
      invariant 0 <= i <= |logs| && |rs| == i
      invariant forall j :: 0 <= j < i ==> ps[j] == Some(rs[j])
      invariant Tallied(rs, socTotal, sohTotal, energySum, readyCount, counts, alerts)
    {
      var parsed := ParseBus(logs[i], show);
      ParseBusesAt(logs, show, i);
      if parsed.None? {
        ConvertedStops(ps, rs);
        return false, socTotal, sohTotal, energySum, readyCount, counts, alerts;
      }
      var r := parsed.value;
      socTotal, sohTotal, energySum, readyCount, counts, alerts :=
        CountBus(socTotal, sohTotal, energySum, readyCount, counts, alerts, r, rs);
      ConvertedStep(ps, rs, r);
      rs := rs + [r];
      i := i + 1;
    }
    ConvertedAll(ps, rs);
    complete := true;
  }

  /** The loop's variables hold the totals and counters of the buses in rs. */
  ghost predicate Tallied(rs: seq<Reading>, socTotal: real, sohTotal: real, energySum: real, readyCount: nat,
                          counts: StatusCounts, alerts: seq<Alert>)
  {
    && socTotal == SocTotal(rs) && sohTotal == SohTotal(rs) && energySum == EnergyTotal(rs)
    && readyCount == ReadyCount(rs) && counts == CountsOf(rs) && alerts == AlertsOf(rs)
  }

  /** The loop body for a bus whose numbers converted: add it to the totals,
      then count it as active and ready, or as critical with its alert. */
  method CountBus(socTotal: real, sohTotal: real, energySum: real, readyCount: nat,
                  counts: StatusCounts, alerts: seq<Alert>, r: Reading, ghost rs: seq<Reading>)
    returns (socTotal': real, sohTotal': real, energySum': real, readyCount': nat,
             counts': StatusCounts, alerts': seq<Alert>)
    requires Tallied(rs, socTotal, sohTotal, energySum, readyCount, counts, alerts)
    ensures Tallied(rs + [r], socTotal', sohTotal', energySum', readyCount', counts', alerts')
  {
    AppendBus(rs, r);
    socTotal', sohTotal', energySum' := socTotal + r.soc, sohTotal + r.soh, energySum + r.energy;
    readyCount', counts', alerts' := readyCount, counts, alerts;
    if Healthy(r) && Charged(r) {
      readyCount' := readyCount + 1;
      counts' := counts.(active := counts.active + 1);
    } else {
      counts' := counts.(critical := counts.critical + 1);
      alerts' := alerts + [AlertOf(r)];
    }
  }

  /** The totals and counters after one more bus. */
  lemma AppendBus(rs: seq<Reading>, r: Reading)
    ensures SocTotal(rs + [r]) == SocTotal(rs) + r.soc
    ensures SohTotal(rs + [r]) == SohTotal(rs) + r.soh
    ensures EnergyTotal(rs + [r]) == EnergyTotal(rs) + r.energy
    ensures ReadyCount(rs + [r]) == ReadyCount(rs) + (if Ready(r) then 1 else 0)
    ensures AlertsOf(rs + [r]) == AlertsOf(rs) + (if Ready(r) then [] else [AlertOf(r)])
  {
    assert (rs + [r])[..|rs|] == rs;
  }

  /** The history loop: one point per document until a conversion raises. */
  method BuildHistory(history: Option<seq<Record>>) returns (points: seq<HistoryPoint>)
    ensures points == History(history)
  {
    points := [];
    if history.None? {
      return;
    }
    var docs := history.value;
    ghost var ps := ParsePoints(docs);
    for i := 0 to |docs|
      invariant |points| == i
      invariant forall j :: 0 <= j < i ==> ps[j] == Some(points[j])
    {
      var parsed := ParsePoint(docs[i]);
      ParsePointsAt(docs, i);
      if parsed.None? {
        ConvertedStops(ps, points);
        return;
      }
      ConvertedStep(ps, points, parsed.value);
      points := points + [parsed.value];
    }
    ConvertedAll(ps, points);
  }

  // ---------------------------------------------------------------
  // Properties
  // ---------------------------------------------------------------

  /** Exactly one alert per bus that is not ready. */
  lemma {:induction false} AlertCount(rs: seq<Reading>)
    ensures |AlertsOf(rs)| == |rs| - ReadyCount(rs)
  {
    if rs != [] {
      AlertCount(rs[..|rs| - 1]);
    }
  }

  /** Every bus that is not ready has its alert in the list. */
  lemma {:induction false} EveryUnreadyBusAlerted(rs: seq<Reading>, i: nat)
    requires i < |rs| && !Ready(rs[i])
    ensures AlertOf(rs[i]) in AlertsOf(rs)
  {
    var init := rs[..|rs| - 1];
    if i < |init| {
      EveryUnreadyBusAlerted(init, i);
    }
  }

  /** Every alert belongs to a bus that is not ready. */
  lemma {:induction false} EveryAlertFromUnreadyBus(rs: seq<Reading>, a: Alert)
    requires a in AlertsOf(rs)
    ensures exists i :: 0 <= i < |rs| && !Ready(rs[i]) && a == AlertOf(rs[i])
  {
    var init := rs[..|rs| - 1];
    if a in AlertsOf(init) {
      EveryAlertFromUnreadyBus(init, a);
      var i :| 0 <= i < |init| && !Ready(init[i]) && a == AlertOf(init[i]);
      assert rs[i] == init[i];
    } else {
      assert !Ready(rs[|rs| - 1]) && a == AlertOf(rs[|rs| - 1]);
    }
  }

  /** All buses ready exactly when ready_count equals the number of buses. */
  lemma {:induction false} ReadyCountAll(rs: seq<Reading>)
    ensures ReadyCount(rs) == |rs| <==> forall i :: 0 <= i < |rs| ==> Ready(rs[i])
  {
    if rs != [] {
      var init := rs[..|rs| - 1];
      ReadyCountAll(init);
      assert forall i :: 0 <= i < |init| ==> init[i] == rs[i];
    }
  }

  /** A product with a positive right factor is positive only when the left
      factor is. */
  lemma PositiveFactor(a: real, b: real)
    requires b > 0.0 && a * b > 0.0
    ensures a > 0.0
  {
  }

  /** fleet_readiness lies in [0, 100] and is 100 exactly when every bus is ready. */
  lemma ReadinessBounds(ready: nat, total: nat)
    requires 0 < total && ready <= total
    ensures 0 <= Readiness(ready, total) <= 100
    ensures Readiness(ready, total) == 100 <==> ready == total
  {
    var t := total as real;
    var f := ready as real / t;
    assert f * t == ready as real;
    assert 0.0 <= f <= 1.0;
    if ready < total {
      assert (1.0 - f) * t == t - ready as real;
      PositiveFactor(1.0 - f, t);
      assert f * 100.0 < 100.0;
    } else {
      assert f == 1.0;
    }
  }

  /** The buses the loop got through before it ended or raised. */
  function Processed(logs: seq<Record>, show: Value -> string): (rs: seq<Reading>)
    ensures |rs| <= |logs|
  {
    Converted(ParseBuses(logs, show))
  }

  /** What the dashboard promises: every processed bus counts once, as active
      (ready) or critical, and has an alert exactly when critical; charging and
      idle stay 0; after a complete pass over a non-empty fleet the readiness lies
      in [0, 100] and is 100 exactly when every bus is ready, and the CO2 saving
      is the energy over 1.2 kWh/km times 0.8 kg/km; an empty fleet or a failed
      aggregation gives the zeroed KPIs, and a bus whose numbers do not convert
      leaves the KPIs and the history at their defaults. */
  lemma DashboardFacts(latest: Option<seq<Record>>, history: Option<seq<Record>>, show: Value -> string)
    ensures var m := DashboardMetrics(latest, history, show);
            && m.statusCounts.charging == 0 && m.statusCounts.idle == 0
            && |m.alerts| == m.statusCounts.critical
            && (latest.Some? ==> m.statusCounts.active + m.statusCounts.critical == |Processed(latest.value, show)|)
            && (latest.None? ==> m == Defaults())
            && (latest == Some([]) ==> m == Defaults().(energyHistory := History(history)))
    ensures var m := DashboardMetrics(latest, history, show);
            latest.Some? && latest.value != [] && |Processed(latest.value, show)| == |latest.value| ==>
              var rs := Processed(latest.value, show);
              && 0 <= m.fleetReadiness <= 100
              && (m.fleetReadiness == 100 <==> forall i :: 0 <= i < |rs| ==> Ready(rs[i]))
              && m.co2Savings == m.totalEnergy / 1.2 * 0.8
              && m.energyHistory == History(history)
    ensures var m := DashboardMetrics(latest, history, show);
            latest.Some? && |Processed(latest.value, show)| < |latest.value| ==>
              m.fleetReadiness == 0 && m.avgSoc == 0.0 && m.energyHistory == []
  {
    if latest.Some? {
      var logs := latest.value;
      var rs := Processed(logs, show);
      AlertCount(rs);
      if |rs| == |logs| && logs != [] {
        ReadyCountAll(rs);
        ReadinessBounds(ReadyCount(rs), |rs|);
      }
    }
  }
}
