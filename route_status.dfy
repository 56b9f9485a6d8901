/** The live route view (backend/routes/route.py, GET /): the SOC band of a
    bus, the nearest charging station offered to a critical bus, and the loop
    that builds one entry per bus. The numbers drawn at random (the SOC
    override and the simulated GPS position) are a parameter, one draw per
    bus; the MongoDB aggregation and lookup are the parameters `telemetry` and
    `maintenance`, None where they raise. */
module RouteStatus {
  import opened Python

  // ---------------------------------------------------------------
  // Helpers
  // ---------------------------------------------------------------

  /** clamp: max(min(val, hi), lo). */
  function Clamp(val: real, lo: real, hi: real): real
  {
    Max(Min(val, hi), lo)
  }

  /** With lo <= hi the result lies in [lo, hi], and a value already in range
      is returned unchanged; values outside are moved to the nearer bound. */
  lemma ClampFacts(val: real, lo: real, hi: real)
    requires lo <= hi
    ensures lo <= Clamp(val, lo, hi) <= hi
    ensures lo <= val <= hi ==> Clamp(val, lo, hi) == val
    ensures val < lo ==> Clamp(val, lo, hi) == lo
    ensures val > hi ==> Clamp(val, lo, hi) == hi
  {
  }

  /** normalize: float(val), or 0.0 where float() raises (the rounding is
      left out). */
  function Normalize(val: Value): (x: real)
    ensures ToFloat(val).None? ==> x == 0.0
    ensures IsNumber(val) ==> x == NumberOf(val)
  {
    match ToFloat(val)
    case None => 0.0
    case Some(f) => f
  }

  // ---------------------------------------------------------------
  // SOC status
  // ---------------------------------------------------------------

  datatype SocStatus = Critical | Mediocre | Good

  /** compute_status_from_soc, on the 25/50 thresholds. */
  function StatusFromSoc(socPct: real): (s: SocStatus)
    ensures s == Critical <==> socPct < 25.0
    ensures s == Mediocre <==> 25.0 <= socPct < 50.0
    ensures s == Good <==> socPct >= 50.0
  {
    if socPct < 25.0 then Critical
    else if socPct < 50.0 then Mediocre
    else Good
  }

  function StatusText(s: SocStatus): string
  {
    match s
    case Critical => "CRITICAL"
    case Mediocre => "MEDIOCRE"
    case Good => "GOOD"
  }

  /** The SOC as a percentage: a fraction (at most 1) is scaled by 100, a
      larger value is capped at 100. */
  function SocPercent(raw: real): (p: real)
    ensures p <= 100.0
    ensures raw <= 1.0 ==> p == raw * 100.0
    ensures raw > 1.0 ==> p == Min(raw, 100.0) && p > 1.0
    ensures raw >= 0.0 ==> p >= 0.0
  {
    if raw <= 1.0 then raw * 100.0 else Min(raw, 100.0)
  }

  /** The SOC override draws bus i's SOC from [0.05, 0.24], [0.25, 0.49] or
      [0.5, 1.0] as i mod 3 is 0, 1 or 2. */
  predicate InOverrideBand(i: nat, raw: real)
  {
    if i % 3 == 0 then 0.05 <= raw <= 0.24
    else if i % 3 == 1 then 0.25 <= raw <= 0.49
    else 0.5 <= raw <= 1.0
  }

  /** So the status of a bus is fixed by its position: every third bus,
      starting with the first, is CRITICAL and is offered a charging station. */
  lemma OverrideFixesStatus(i: nat, raw: real)
    requires InOverrideBand(i, raw)
    ensures StatusFromSoc(SocPercent(raw)) == (if i % 3 == 0 then Critical else if i % 3 == 1 then Mediocre else Good)
  {
  }

  // ---------------------------------------------------------------
  // Charging stations
  // ---------------------------------------------------------------

  datatype Station = Station(name: string, lat: real, lng: real)

  const ChargingStations: seq<Station> := [
    Station("Station A", 18.525, 73.855),
    Station("Station B", 18.515, 73.865),
    Station("Station C", 18.530, 73.845)]

  /** The key nearest_charging minimises: the squared distance. */
  function SquaredDistance(s: Station, lat: real, lng: real): real
  {
    (s.lat - lat) * (s.lat - lat) + (s.lng - lng) * (s.lng - lng)
  }

  /** min(stations, key=...): a scan that replaces the best so far only on a
      strictly smaller key, giving the index of the first station with the
      least squared distance. */
  function MinIndex(stations: seq<Station>, lat: real, lng: real): (k: nat)
    requires stations != []
    ensures k < |stations|
    ensures forall j :: 0 <= j < |stations| ==> SquaredDistance(stations[k], lat, lng) <= SquaredDistance(stations[j], lat, lng)
    ensures forall j :: 0 <= j < k ==> SquaredDistance(stations[j], lat, lng) > SquaredDistance(stations[k], lat, lng)
  {
    if |stations| == 1 then 0
    else
      var last := |stations| - 1;
      var k := MinIndex(stations[..last], lat, lng);
      assert forall j :: 0 <= j < last ==> stations[..last][j] == stations[j];
      if SquaredDistance(stations[last], lat, lng) < SquaredDistance(stations[k], lat, lng) then last else k
  }

  /** nearest_charging: a station no other is closer than, and on a tie the
      first in the list. */
  function NearestCharging(lat: real, lng: real): (s: Station)
    ensures s in ChargingStations
    ensures forall t :: t in ChargingStations ==> SquaredDistance(s, lat, lng) <= SquaredDistance(t, lat, lng)
    ensures forall j :: 0 <= j < |ChargingStations| && SquaredDistance(ChargingStations[j], lat, lng) <= SquaredDistance(s, lat, lng) ==>
              exists i :: 0 <= i <= j && ChargingStations[i] == s
  {
    var k := MinIndex(ChargingStations, lat, lng);
    assert forall j :: 0 <= j < |ChargingStations| && SquaredDistance(ChargingStations[j], lat, lng) <= SquaredDistance(ChargingStations[k], lat, lng) ==>
             k <= j && ChargingStations[k] == ChargingStations[k];
    ChargingStations[k]
  }

  /** At a station's own position, that station is the one offered. */
  lemma NearestAtStation(j: nat)
    requires j < |ChargingStations|
    ensures NearestCharging(ChargingStations[j].lat, ChargingStations[j].lng) == ChargingStations[j]
  {
    var s := ChargingStations[j];
    var k := MinIndex(ChargingStations, s.lat, s.lng);
    assert SquaredDistance(s, s.lat, s.lng) == 0.0;
    forall i | 0 <= i < |ChargingStations| && i != j
      ensures SquaredDistance(ChargingStations[i], s.lat, s.lng) > 0.0
    {
      var t := ChargingStations[i];
      assert t.lat != s.lat || t.lng != s.lng;
      PositiveSquare(t.lat - s.lat, t.lng - s.lng);
    }
  }

  lemma PositiveSquare(a: real, b: real)
    requires a != 0.0 || b != 0.0
    ensures a * a + b * b > 0.0
  {
    if a != 0.0 {
      assert a * a > 0.0;
    } else {
      assert b * b > 0.0;
    }
  }

  // ---------------------------------------------------------------
  // The per-bus loop
  // ---------------------------------------------------------------

  const RouteIds: seq<string> := ["Alpha-Line", "Beta-Line", "Gamma-Line", "Delta-Line", "Epsilon-Line"]

  /** The random numbers drawn for one bus: the SOC override and the position
      get_simulated_gps returns. */
  datatype Draw = Draw(soc: real, gpsLat: real, gpsLng: real)

  /** One entry of `buses` (the random route points are left out). */
  datatype BusRoute = BusRoute(busId: Value, routeId: Value, soc: real, status: SocStatus,
                               lat: real, lng: real, gpsSimulated: bool, lastUpdate: Value,
                               chargingStation: Option<Station>)

  /** The position used for a bus: the stored one, or a simulated one when lat
      or lng is None; None where a stored coordinate is not a number, which
      raises when the route points are generated. */
  function Position(t: Record, d: Draw): (p: Option<(real, real, bool)>)
    ensures p.Some? && !p.value.2 ==> IsNumber(Get(t, "lat", Null)) && IsNumber(Get(t, "lng", Null))
    ensures (Get(t, "lat", Null).Null? || Get(t, "lng", Null).Null?) <==> p.Some? && p.value.2
  {
    var lat := Get(t, "lat", Null);
    var lng := Get(t, "lng", Null);
    if lat.Null? || lng.Null? then Some((d.gpsLat, d.gpsLng, true))
    else if IsNumber(lat) && IsNumber(lng) then Some((NumberOf(lat), NumberOf(lng), false))
    else None
  }

  /** The route of a bus: the one its maintenance record names, else the
      route in position idx mod 5. */
  function RouteOf(idx: nat, busId: Value, maintenance: map<Value, Record>): Value
  {
    var fallback := Str(RouteIds[idx % |RouteIds|]);
    if busId in maintenance then Get(maintenance[busId], "route_id", fallback) else fallback
  }

  /** The body of `for idx, t in enumerate(telemetry)`. */
  function BusEntry(idx: nat, t: Record, maintenance: map<Value, Record>, d: Draw): Option<BusRoute>
  {
    var busId := Get(t, "_id", Null);
    var socPct := SocPercent(d.soc);
    var status := StatusFromSoc(socPct);
    match Position(t, d)
    case None => None
    case Some(pos) =>
      var ts := Get(t, "timestamp", Null);
      Some(BusRoute(busId, RouteOf(idx, busId, maintenance), socPct, status,
                    Normalize(Float(pos.0)), Normalize(Float(pos.1)), pos.2,
                    if ts.Date? then DateText(ts.at, "iso") else Null,
                    if status == Critical then Some(NearestCharging(pos.0, pos.1)) else None))
  }

  function BusEntries(telemetry: seq<Record>, maintenance: map<Value, Record>, draw: nat -> Draw): (es: seq<Option<BusRoute>>)
    ensures |es| == |telemetry|
    ensures forall i :: 0 <= i < |telemetry| ==> es[i] == BusEntry(i, telemetry[i], maintenance, draw(i))
  {
    if telemetry == [] then []
    else
      var n := |telemetry| - 1;
      BusEntries(telemetry[..n], maintenance, draw) + [BusEntry(n, telemetry[n], maintenance, draw(n))]
  }

  datatype RouteReply =
    | Buses(buses: seq<BusRoute>)   // 200, count = |buses|
    | Failed                        // 500

  /** route_status: a failed fetch or a bus with a non-numeric coordinate is a
      500; otherwise one entry per bus, in order. */
  function RouteStatusOf(telemetry: Option<seq<Record>>, maintenance: Option<map<Value, Record>>, draw: nat -> Draw): RouteReply
  {
    if telemetry.None? || maintenance.None? then Failed
    else
      var es := BusEntries(telemetry.value, maintenance.value, draw);
      if FirstNone(es) < |es| then Failed else Buses(Converted(es))
  }

  /** The loop, appending one entry per bus. */
  method GetRouteStatus(telemetry: Option<seq<Record>>, maintenance: Option<map<Value, Record>>, draw: nat -> Draw)
    returns (reply: RouteReply)
    ensures reply == RouteStatusOf(telemetry, maintenance, draw)
  {
    if telemetry.None? || maintenance.None? {
      return Failed;
    }
    var rows := telemetry.value;
    ghost var es := BusEntries(rows, maintenance.value, draw);
    var buses: seq<BusRoute> := [];
    for idx := 0 to |rows|
      invariant |buses| == idx
      invariant forall j :: 0 <= j < idx ==> es[j] == Some(buses[j])
    {
      var entry := BusEntry(idx, rows[idx], maintenance.value, draw(idx));
      assert es[idx] == entry;
      if entry.None? {
        FirstNoneAt(es, idx);
        return Failed;
      }
      ConvertedStep(es, buses, entry.value);
      buses := buses + [entry.value];
    }
    ConvertedAll(es, buses);
    reply := Buses(buses);
  }

  /** One bus entry: its id; a charging station exactly when CRITICAL, and
      then the nearest one; a SOC of at most 100 and the status of that SOC;
      the fallback route when the bus has no maintenance record; a simulated
      position exactly when lat or lng was missing. */
  lemma BusEntryFacts(idx: nat, t: Record, maintenance: map<Value, Record>, d: Draw)
    requires BusEntry(idx, t, maintenance, d).Some?
    ensures var b := BusEntry(idx, t, maintenance, d).value;
            && b.busId == Get(t, "_id", Null)
            && (b.chargingStation.Some? <==> b.status == Critical)
            && (b.chargingStation.Some? ==> b.chargingStation.value == NearestCharging(b.lat, b.lng))
            && b.soc <= 100.0
            && b.status == StatusFromSoc(b.soc)
            && (Get(t, "_id", Null) !in maintenance ==> b.routeId == Str(RouteIds[idx % 5]))
            && (b.gpsSimulated <==> Get(t, "lat", Null).Null? || Get(t, "lng", Null).Null?)
  {
    var pos := Position(t, d).value;
    assert Normalize(Float(pos.0)) == pos.0 && Normalize(Float(pos.1)) == pos.1;
  }

  /** A successful reply has one entry per telemetry row, in order, each the
      entry of its row. */
  lemma RouteStatusEntries(telemetry: Option<seq<Record>>, maintenance: Option<map<Value, Record>>, draw: nat -> Draw)
    requires RouteStatusOf(telemetry, maintenance, draw).Buses?
    ensures var buses := RouteStatusOf(telemetry, maintenance, draw).buses;
            && |buses| == |telemetry.value|
            && forall i :: 0 <= i < |buses| ==> BusEntry(i, telemetry.value[i], maintenance.value, draw(i)) == Some(buses[i])
  {
    var es := BusEntries(telemetry.value, maintenance.value, draw);
    assert FirstNone(es) == |es|;
  }

  /** A reply fails exactly when a fetch failed or some row has a stored
      coordinate that is present but not a number. */
  lemma RouteStatusFails(telemetry: Option<seq<Record>>, maintenance: Option<map<Value, Record>>, draw: nat -> Draw)
    ensures RouteStatusOf(telemetry, maintenance, draw).Failed? <==>
              telemetry.None? || maintenance.None?
              || exists i :: 0 <= i < |telemetry.value| && Position(telemetry.value[i], draw(i)).None?
  {
    if telemetry.Some? && maintenance.Some? {
      var es := BusEntries(telemetry.value, maintenance.value, draw);
      var k := FirstNone(es);
      if k < |es| {
        assert Position(telemetry.value[k], draw(k)).None?;
      } else {
        forall i | 0 <= i < |telemetry.value|
          ensures Position(telemetry.value[i], draw(i)).Some?
        {
          assert es[i].Some?;
        }
      }
    }
  }
}
