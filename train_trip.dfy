/** The trip training set (backend/ml/train_trip_feasibility.py): the raw
    column check of train_trip_model and the per-trip aggregation of
    build_trip_dataset, whose result feeds the trip training features. A raw
    row holds the five columns the script reads. Reading the CSV, the split
    and the fit are left out. */
module TrainTrip {
  import opened Python
  import opened FeatureBuilder

  /** The raw columns train_trip_model requires, in the order it lists them. */
  const RawColumns: seq<string> := ["trip_id", "SOC", "distance_km", "speed_kmph", "passenger_count"]

  /** The columns of the trip-level frame, in order. */
  const TripColumns: seq<string> := ["start_soc", "end_soc", "route_distance_km", "avg_speed_kmph",
                                      "passenger_load", "energy_consumed_pct"]

  datatype RawRow = RawRow(tripId: int, soc: real, distance: real, speed: real, passengers: real)

  datatype TripSample = TripSample(startSoc: real, endSoc: real, routeDistance: real, avgSpeed: real,
                                   passengerLoad: real, energyConsumed: real)

  /** The refusal of train_trip_model: every absent raw column, in order. */
  function CheckRawColumns(columns: seq<string>): (r: Option<Fault>)
    ensures r.None? <==> forall i :: 0 <= i < |RawColumns| ==> RawColumns[i] in columns
    ensures r.Some? ==> r.value.MissingNames? && forall c :: c in r.value.names <==> c in RawColumns && c !in columns
  {
    var missing := Missing(RawColumns, set c | c in columns);
    if missing == [] then None else Some(MissingNames(missing))
  }

  // ---------------------------------------------------------------
  // groupby("trip_id"): the groups in ascending key order
  // ---------------------------------------------------------------

  predicate StrictlyIncreasing(s: seq<int>)
  {
    forall i, j :: 0 <= i < j < |s| ==> s[i] < s[j]
  }

  /** Add x to an increasing list of keys, unless it is there already. */
  function AddKey(x: int, s: seq<int>): (out: seq<int>)
    requires StrictlyIncreasing(s)
    ensures StrictlyIncreasing(out)
    ensures forall y :: y in out <==> y == x || y in s
  {
    if s == [] then [x]
    else if x < s[0] then [x] + s
    else if x == s[0] then s
    else
      var rest := AddKey(x, s[1..]);
      assert s == [s[0]] + s[1..];
      assert forall y :: y in s[1..] ==> s[0] < y;
      assert forall y :: y in rest ==> s[0] < y;
      ConsIncreasing(s[0], rest);
      [s[0]] + rest
  }

  /** A key below every key of an increasing list can lead it. */
  lemma ConsIncreasing(a: int, rest: seq<int>)
    requires StrictlyIncreasing(rest)
    requires forall y :: y in rest ==> a < y
    ensures StrictlyIncreasing([a] + rest)
  {
    forall i, j | 0 <= i < j < |[a] + rest|
      ensures ([a] + rest)[i] < ([a] + rest)[j]
    {
      assert ([a] + rest)[j] == rest[j - 1];
      if i > 0 {
        assert ([a] + rest)[i] == rest[i - 1];
      } else {
        assert rest[j - 1] in rest;
      }
    }
  }

  /** The distinct trip ids, in ascending order. */
  function TripIds(rows: seq<RawRow>): (ids: seq<int>)
    ensures StrictlyIncreasing(ids)
    ensures forall x :: x in ids <==> exists j :: 0 <= j < |rows| && rows[j].tripId == x
  {
    if rows == [] then []
    else
      var n := |rows| - 1;
      var ids := AddKey(rows[n].tripId, TripIds(rows[..n]));
      assert forall j :: 0 <= j < n ==> rows[..n][j] == rows[j];
      ids
  }

  /** The rows of one trip, in frame order. */
  function OfTrip(rows: seq<RawRow>, id: int): (g: seq<RawRow>)
    ensures forall x :: x in g <==> x in rows && x.tripId == id
  {
    if rows == [] then []
    else
      var n := |rows| - 1;
      assert rows == rows[..n] + [rows[n]];
      OfTrip(rows[..n], id) + (if rows[n].tripId == id then [rows[n]] else [])
  }

  /** A frame with no row of the trip has an empty group. */
  lemma {:induction false} NoTripRows(rows: seq<RawRow>, id: int)
    requires forall k :: 0 <= k < |rows| ==> rows[k].tripId != id
    ensures OfTrip(rows, id) == []
  {
    if rows != [] {
      NoTripRows(rows[..|rows| - 1], id);
    }
  }

  /** The first row of a trip's group is the trip's first row in the frame. */
  lemma {:induction false} OfTripFirst(rows: seq<RawRow>, id: int, j: nat)
    requires j < |rows| && rows[j].tripId == id
    requires forall k :: 0 <= k < j ==> rows[k].tripId != id
    ensures OfTrip(rows, id) != [] && OfTrip(rows, id)[0] == rows[j]
  {
    var n := |rows| - 1;
    if n == j {
      NoTripRows(rows[..n], id);
    } else {
      OfTripFirst(rows[..n], id, j);
    }
  }

  /** The last row of a trip's group is the trip's last row in the frame. */
  lemma {:induction false} OfTripLast(rows: seq<RawRow>, id: int, j: nat)
    requires j < |rows| && rows[j].tripId == id
    requires forall k :: j < k < |rows| ==> rows[k].tripId != id
    ensures OfTrip(rows, id) != [] && OfTrip(rows, id)[|OfTrip(rows, id)| - 1] == rows[j]
  {
    var n := |rows| - 1;
    if n != j {
      OfTripLast(rows[..n], id, j);
    }
  }

  // ---------------------------------------------------------------
  // The aggregations
  // ---------------------------------------------------------------

  /** max() of the distances of a non-empty group. */
  function MaxDistance(g: seq<RawRow>): (m: real)
    requires g != []
    ensures forall k :: 0 <= k < |g| ==> g[k].distance <= m
    ensures exists k :: 0 <= k < |g| && g[k].distance == m
  {
    if |g| == 1 then g[0].distance
    else
      var n := |g| - 1;
      var m := MaxDistance(g[..n]);
      assert forall k :: 0 <= k < n ==> g[..n][k] == g[k];
      if g[n].distance > m then g[n].distance else m
  }

  function SpeedSum(g: seq<RawRow>): real
  {
    if g == [] then 0.0 else SpeedSum(g[..|g| - 1]) + g[|g| - 1].speed
  }

  function PassengerSum(g: seq<RawRow>): real
  {
    if g == [] then 0.0 else PassengerSum(g[..|g| - 1]) + g[|g| - 1].passengers
  }

  lemma {:induction false} SpeedSumBounds(g: seq<RawRow>, lo: real, hi: real)
    requires forall k :: 0 <= k < |g| ==> lo <= g[k].speed <= hi
    ensures |g| as real * lo <= SpeedSum(g) <= |g| as real * hi
  {
    if g != [] {
      SpeedSumBounds(g[..|g| - 1], lo, hi);
    }
  }

  lemma CancelFactor(a: real, b: real, c: real)
    requires c > 0.0 && a * c <= b * c
    ensures a <= b
  {
    assert (b - a) * c == b * c - a * c;
  }

  /** A mean lies between bounds on what it averages. */
  lemma MeanWithin(sum: real, n: nat, lo: real, hi: real)
    requires n > 0 && n as real * lo <= sum <= n as real * hi
    ensures lo <= sum / n as real <= hi
  {
    var m := sum / n as real;
    assert m * n as real == sum;
    CancelFactor(lo, m, n as real);
    CancelFactor(m, hi, n as real);
  }

  /** One trip-level row: first and last SOC, the longest distance, the mean
      speed and the mean passenger count, and the SOC consumed. */
  function Sample(g: seq<RawRow>): TripSample
    requires g != []
  {
    var n := |g| as real;
    var start := g[0].soc;
    var end := g[|g| - 1].soc;
    TripSample(start, end, MaxDistance(g), SpeedSum(g) / n, PassengerSum(g) / n, start - end)
  }

  /** build_trip_dataset: one row per distinct trip id, in ascending id order. */
  function BuildTripDataset(rows: seq<RawRow>): (samples: seq<TripSample>)
    ensures |samples| == |TripIds(rows)|
  {
    var ids := TripIds(rows);
    seq(|ids|, k requires 0 <= k < |ids| =>
      assert ids[k] in ids;
      var j :| 0 <= j < |rows| && rows[j].tripId == ids[k];
      assert rows[j] in OfTrip(rows, ids[k]);
      Sample(OfTrip(rows, ids[k])))
  }

  /** What the trip set holds: exactly one row per distinct trip id, in
      ascending id order; a trip's start and end SOC are those of its first and
      last rows in the frame; its distance is the longest distance it logged;
      the energy consumed is start minus end. */
  lemma TripDatasetFacts(rows: seq<RawRow>, k: nat, first: nat, last: nat)
    requires k < |TripIds(rows)|
    requires first < |rows| && rows[first].tripId == TripIds(rows)[k]
    requires forall j :: 0 <= j < first ==> rows[j].tripId != TripIds(rows)[k]
    requires last < |rows| && rows[last].tripId == TripIds(rows)[k]
    requires forall j :: last < j < |rows| ==> rows[j].tripId != TripIds(rows)[k]
    ensures var s := BuildTripDataset(rows)[k];
            var id := TripIds(rows)[k];
            && s.startSoc == rows[first].soc
            && s.endSoc == rows[last].soc
            && s.energyConsumed == s.startSoc - s.endSoc
            && (forall j :: 0 <= j < |rows| && rows[j].tripId == id ==> rows[j].distance <= s.routeDistance)
            && (exists j :: 0 <= j < |rows| && rows[j].tripId == id && rows[j].distance == s.routeDistance)
  {
    var id := TripIds(rows)[k];
    var g := OfTrip(rows, id);
    OfTripFirst(rows, id, first);
    OfTripLast(rows, id, last);
    TripGroup(rows, k);
    var m := MaxDistance(g);
    forall j | 0 <= j < |rows| && rows[j].tripId == id
      ensures rows[j].distance <= m
    {
      assert rows[j] in g;
    }
    var i :| 0 <= i < |g| && g[i].distance == m;
    assert g[i] in rows;
  }

  /** Trip k of the set is aggregated from the rows of the k-th smallest id. */
  lemma TripGroup(rows: seq<RawRow>, k: nat)
    requires k < |TripIds(rows)|
    ensures OfTrip(rows, TripIds(rows)[k]) != []
    ensures BuildTripDataset(rows)[k] == Sample(OfTrip(rows, TripIds(rows)[k]))
  {
    var id := TripIds(rows)[k];
    assert id in TripIds(rows);
    var j :| 0 <= j < |rows| && rows[j].tripId == id;
    assert rows[j] in OfTrip(rows, id);
  }

  /** The mean speed of a group lies within the range of its speeds. */
  lemma SampleSpeedWithin(g: seq<RawRow>, lo: real, hi: real)
    requires g != []
    requires forall i :: 0 <= i < |g| ==> lo <= g[i].speed <= hi
    ensures lo <= Sample(g).avgSpeed <= hi
  {
    SpeedSumBounds(g, lo, hi);
    MeanWithin(SpeedSum(g), |g|, lo, hi);
  }

  /** The mean speed of a trip lies within the range of the speeds it logged. */
  lemma TripSpeedWithin(rows: seq<RawRow>, k: nat, lo: real, hi: real)
    requires k < |TripIds(rows)|
    requires forall j :: 0 <= j < |rows| && rows[j].tripId == TripIds(rows)[k] ==> lo <= rows[j].speed <= hi
    ensures lo <= BuildTripDataset(rows)[k].avgSpeed <= hi
  {
    var id := TripIds(rows)[k];
    var g := OfTrip(rows, id);
    TripGroup(rows, k);
    forall i | 0 <= i < |g|
      ensures lo <= g[i].speed <= hi
    {
      assert g[i] in g;
      var j :| 0 <= j < |rows| && rows[j] == g[i];
    }
    SampleSpeedWithin(g, lo, hi);
  }

  // ---------------------------------------------------------------
  // Into build_trip_training_features
  // ---------------------------------------------------------------

  function SampleRecord(s: TripSample): Record
  {
    map["start_soc" := Float(s.startSoc), "end_soc" := Float(s.endSoc),
        "route_distance_km" := Float(s.routeDistance), "avg_speed_kmph" := Float(s.avgSpeed),
        "passenger_load" := Float(s.passengerLoad), "energy_consumed_pct" := Float(s.energyConsumed)]
  }

  /** The trip-level frame handed to the feature builder. */
  function TripFrame(samples: seq<TripSample>): Frame
  {
    Frame(TripColumns, seq(|samples|, k requires 0 <= k < |samples| => SampleRecord(samples[k])))
  }

  lemma TripFrameColumns()
    ensures Missing(TripFeatures + [TripTarget], set c | c in TripColumns) == []
  {
    var present := set c | c in TripColumns;
    assert forall i :: 0 <= i < |TripFeatures + [TripTarget]| ==> (TripFeatures + [TripTarget])[i] in present;
  }

  /** The trip set always passes the feature builder's checks: every trip
      yields the example (start_soc, route_distance_km, avg_speed_kmph,
      passenger_load) with target energy_consumed_pct. */
  lemma TripSetTrains(samples: seq<TripSample>)
    ensures WellFormed(TripFrame(samples))
    ensures var r := TrainingExamples(TripFrame(samples), TripFeatures, TripTarget);
            && r.Ok? && |r.value| == |samples|
            && forall k :: 0 <= k < |samples| ==>
                 r.value[k] == Example([samples[k].startSoc, samples[k].routeDistance, samples[k].avgSpeed,
                                        samples[k].passengerLoad], samples[k].energyConsumed)
  {
    var f := TripFrame(samples);
    TripFrameColumns();
    TripFrameNumeric(samples);
    var r := TrainingExamples(f, TripFeatures, TripTarget);
    forall k | 0 <= k < |samples|
      ensures r.value[k] == Example([samples[k].startSoc, samples[k].routeDistance, samples[k].avgSpeed,
                                     samples[k].passengerLoad], samples[k].energyConsumed)
    {
      assert f.rows[k] == SampleRecord(samples[k]);
      SampleExample(samples[k], r.value[k]);
    }
  }

  /** The example read from a sample's record holds the sample's numbers. */
  lemma SampleExample(s: TripSample, e: Example)
    requires forall c :: c in TripFeatures + [TripTarget] ==> Convertible(SampleRecord(s), c)
    requires |e.x| == |TripFeatures|
    requires forall j :: 0 <= j < |TripFeatures| ==> e.x[j] == FloatAt(SampleRecord(s), TripFeatures[j])
    requires e.y == FloatAt(SampleRecord(s), TripTarget)
    ensures e == Example([s.startSoc, s.routeDistance, s.avgSpeed, s.passengerLoad], s.energyConsumed)
  {
    SampleRecordFloats(s);
    assert e.x[0] == s.startSoc && e.x[1] == s.routeDistance;
    assert e.x[2] == s.avgSpeed && e.x[3] == s.passengerLoad;
  }

  /** Every column of a sample's record holds the sample's own number. */
  lemma SampleRecordFloats(s: TripSample)
    ensures forall c :: c in TripFeatures + [TripTarget] ==> Convertible(SampleRecord(s), c)
    ensures FloatAt(SampleRecord(s), "start_soc") == s.startSoc
    ensures FloatAt(SampleRecord(s), "route_distance_km") == s.routeDistance
    ensures FloatAt(SampleRecord(s), "avg_speed_kmph") == s.avgSpeed
    ensures FloatAt(SampleRecord(s), "passenger_load") == s.passengerLoad
    ensures FloatAt(SampleRecord(s), "energy_consumed_pct") == s.energyConsumed
  {
  }

  /** The trip frame is well formed and every required column converts. */
  lemma TripFrameNumeric(samples: seq<TripSample>)
    ensures WellFormed(TripFrame(samples))
    ensures forall j :: 0 <= j < |TripFeatures + [TripTarget]| ==>
              ColumnNumeric(TripFrame(samples).rows, (TripFeatures + [TripTarget])[j])
  {
    var f := TripFrame(samples);
    var required := TripFeatures + [TripTarget];
    forall j | 0 <= j < |required|
      ensures ColumnNumeric(f.rows, required[j])
    {
      forall k | 0 <= k < |f.rows|
        ensures Convertible(f.rows[k], required[j])
      {
        assert f.rows[k] == SampleRecord(samples[k]);
        SampleRecordFloats(samples[k]);
      }
    }
  }
}
