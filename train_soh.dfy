/** The SOH training set (backend/ml/train_soh_model.py, build_soh_dataset):
    the required-column check, the lifecycle ordering, and the two per-battery
    features derived from it, resistance_growth and thermal_avg_50. The frame
    is its column names and its rows; a row holds the five columns the script
    reads. Reading the CSV, scaling, the split and the fit are left out. */
module TrainSoh {
  import opened Python
  import opened FeatureBuilder

  /** The columns build_soh_dataset requires, in the order it lists them. */
  const RequiredCols: seq<string> := ["battery_id", "cycle_count", "internal_resistance", "thermal_stress_index", "SOH"]

  /** The feature columns of X, in order; the target is SOH. */
  const SohModelFeatures: seq<string> := ["cycle_count", "internal_resistance", "resistance_growth", "thermal_avg_50"]

  /** The rolling window of thermal_avg_50. */
  const Window: nat := 50

  datatype BatteryRow = BatteryRow(batteryId: int, cycle: int, resistance: real, thermal: real, soh: real)

  // ---------------------------------------------------------------
  // sort_values(["battery_id", "cycle_count"])
  // ---------------------------------------------------------------

  /** a comes no later than b in lifecycle order. */
  predicate Before(a: BatteryRow, b: BatteryRow)
  {
    a.batteryId < b.batteryId || (a.batteryId == b.batteryId && a.cycle <= b.cycle)
  }

  predicate Sorted(rows: seq<BatteryRow>)
  {
    forall i, j :: 0 <= i < j < |rows| ==> Before(rows[i], rows[j])
  }

  /** Insert r ahead of the first row it does not come after. */
  function Insert(r: BatteryRow, rows: seq<BatteryRow>): (out: seq<BatteryRow>)
    requires Sorted(rows)
    ensures Sorted(out)
    ensures multiset(out) == multiset(rows) + multiset{r}
    ensures |out| == |rows| + 1
  {
    if rows == [] then [r]
    else if Before(r, rows[0]) then [r] + rows
    else
      var rest := Insert(r, rows[1..]);
      HeadBeforeRest(r, rows, rest);
      ConsSorted(rows[0], rest);
      assert rows == [rows[0]] + rows[1..];
      [rows[0]] + rest
  }

  /** When r goes after the head, the head comes before every row of the rest
      with r inserted. */
  lemma HeadBeforeRest(r: BatteryRow, rows: seq<BatteryRow>, rest: seq<BatteryRow>)
    requires Sorted(rows) && rows != [] && !Before(r, rows[0])
    requires multiset(rest) == multiset(rows[1..]) + multiset{r}
    ensures forall x :: x in rest ==> Before(rows[0], x)
  {
    forall x | x in rest
      ensures Before(rows[0], x)
    {
      assert x in multiset(rest);
      if x != r {
        assert x in multiset(rows[1..]);
        var k :| 0 <= k < |rows[1..]| && rows[1..][k] == x;
        assert rows[k + 1] == x;
      }
    }
  }

  /** A sorted list stays sorted behind a row that comes before all of it. */
  lemma ConsSorted(a: BatteryRow, rest: seq<BatteryRow>)
    requires Sorted(rest)
    requires forall x :: x in rest ==> Before(a, x)
    ensures Sorted([a] + rest)
  {
    var s := [a] + rest;
    forall i, j | 0 <= i < j < |s|
      ensures Before(s[i], s[j])
    {
      assert s[j] == rest[j - 1];
      if i > 0 {
        assert s[i] == rest[i - 1];
      } else {
        assert rest[j - 1] in rest;
      }
    }
  }

  /** The rows in lifecycle order: sorted by battery, then by cycle, and a
      permutation of the input; rows with the same key keep their input order. */
  function Sort(rows: seq<BatteryRow>): (out: seq<BatteryRow>)
    ensures Sorted(out)
    ensures multiset(out) == multiset(rows)
    ensures |out| == |rows|
  {
    if rows == [] then []
    else
      assert rows == [rows[0]] + rows[1..];
      Insert(rows[0], Sort(rows[1..]))
  }

  // ---------------------------------------------------------------
  // groupby("battery_id")
  // ---------------------------------------------------------------

  /** The rows of one battery, in frame order. */
  function OfBattery(rows: seq<BatteryRow>, b: int): (g: seq<BatteryRow>)
    ensures |g| <= |rows|
    ensures forall x :: x in g <==> x in rows && x.batteryId == b
  {
    if rows == [] then []
    else
      var n := |rows| - 1;
      assert rows == rows[..n] + [rows[n]];
      OfBattery(rows[..n], b) + (if rows[n].batteryId == b then [rows[n]] else [])
  }

  lemma {:induction false} OfBatteryAppend(s: seq<BatteryRow>, t: seq<BatteryRow>, b: int)
    ensures OfBattery(s + t, b) == OfBattery(s, b) + OfBattery(t, b)
    decreases |t|
  {
    if t == [] {
      assert s + t == s;
    } else {
      var n := |t| - 1;
      assert (s + t)[..|s + t| - 1] == s + t[..n];
      OfBatteryAppend(s, t[..n], b);
    }
  }

  /** A stretch of rows all of battery b is kept whole. */
  lemma {:induction false} OfBatteryAll(t: seq<BatteryRow>, b: int)
    requires forall k :: 0 <= k < |t| ==> t[k].batteryId == b
    ensures OfBattery(t, b) == t
  {
    if t != [] {
      var n := |t| - 1;
      assert t == t[..n] + [t[n]];
      OfBatteryAll(t[..n], b);
    }
  }

  /** The earlier rows of the same battery, then the row itself. */
  lemma GroupEndsWithRow(rows: seq<BatteryRow>, i: nat)
    requires i < |rows|
    ensures OfBattery(rows[..i + 1], rows[i].batteryId) == OfBattery(rows[..i], rows[i].batteryId) + [rows[i]]
  {
    assert rows[..i + 1][..i] == rows[..i];
  }

  // ---------------------------------------------------------------
  // resistance_growth: groupby diff, NaN filled with 0
  // ---------------------------------------------------------------

  /** The row's resistance less that of the previous row of the same battery,
      or 0 when there is none. */
  function Growth(rows: seq<BatteryRow>, i: nat): real
    requires i < |rows|
  {
    var earlier := OfBattery(rows[..i], rows[i].batteryId);
    if earlier == [] then 0.0 else rows[i].resistance - earlier[|earlier| - 1].resistance
  }

  /** In lifecycle order the previous row of the same battery is the row just
      before, if it belongs to that battery: the growth is the difference from
      the row above, and 0 on each battery's first row. */
  lemma AdjacentGrowth(rows: seq<BatteryRow>, i: nat)
    requires Sorted(rows) && i < |rows|
    ensures Growth(rows, i) == if i > 0 && rows[i - 1].batteryId == rows[i].batteryId
                               then rows[i].resistance - rows[i - 1].resistance else 0.0
  {
    var b := rows[i].batteryId;
    if i > 0 && rows[i - 1].batteryId == b {
      GroupEndsWithRow(rows, i - 1);
      assert rows[..i - 1 + 1] == rows[..i];
    } else if i > 0 {
      forall x | x in rows[..i]
        ensures x.batteryId != b
      {
        var j :| 0 <= j < i && rows[j] == x;
        assert Before(rows[j], rows[i - 1]) || j == i - 1;
        assert Before(rows[i - 1], rows[i]);
      }
    }
  }

  // ---------------------------------------------------------------
  // thermal_avg_50: groupby rolling(50) mean, NaN filled with the row's own value
  // ---------------------------------------------------------------

  function ThermalSum(rows: seq<BatteryRow>): real
  {
    if rows == [] then 0.0 else ThermalSum(rows[..|rows| - 1]) + rows[|rows| - 1].thermal
  }

  /** The mean thermal stress of the row and the 49 earlier rows of its
      battery when there are that many, the row's own value otherwise. */
  function ThermalAvg(rows: seq<BatteryRow>, i: nat): real
    requires i < |rows|
  {
    var group := OfBattery(rows[..i + 1], rows[i].batteryId);
    if |group| < Window then rows[i].thermal
    else ThermalSum(group[|group| - Window..]) / Window as real
  }

  /** A row with fewer than 49 earlier rows of its battery keeps its own
      value. */
  lemma ThermalAvgShortHistory(rows: seq<BatteryRow>, i: nat)
    requires i < |rows|
    requires |OfBattery(rows[..i], rows[i].batteryId)| < Window - 1
    ensures ThermalAvg(rows, i) == rows[i].thermal
  {
    GroupEndsWithRow(rows, i);
  }

  /** In lifecycle order the window is the 50 consecutive rows ending at the
      row, when the first of them belongs to the same battery. */
  lemma SortedWindow(rows: seq<BatteryRow>, i: nat)
    requires Sorted(rows) && Window - 1 <= i < |rows|
    requires rows[i - (Window - 1)].batteryId == rows[i].batteryId
    ensures ThermalAvg(rows, i) == ThermalSum(rows[i - (Window - 1)..i + 1]) / Window as real
  {
    var b := rows[i].batteryId;
    var lo := i - (Window - 1);
    var w := rows[lo..i + 1];
    forall k | 0 <= k < |w|
      ensures w[k].batteryId == b
    {
      assert w[k] == rows[lo + k];
      assert lo + k == lo || Before(rows[lo], rows[lo + k]);
      assert lo + k == i || Before(rows[lo + k], rows[i]);
    }
    OfBatteryAll(w, b);
    assert rows[..i + 1] == rows[..lo] + w;
    OfBatteryAppend(rows[..lo], w, b);
    var group := OfBattery(rows[..i + 1], b);
    assert group == OfBattery(rows[..lo], b) + w;
    assert group[|group| - Window..] == w;
  }

  lemma {:induction false} ThermalSumConstant(rows: seq<BatteryRow>, c: real)
    requires forall k :: 0 <= k < |rows| ==> rows[k].thermal == c
    ensures ThermalSum(rows) == |rows| as real * c
  {
    if rows != [] {
      ThermalSumConstant(rows[..|rows| - 1], c);
    }
  }

  /** A battery whose thermal stress never changed averages to that value. */
  lemma ThermalAvgConstant(rows: seq<BatteryRow>, i: nat, c: real)
    requires i < |rows|
    requires forall j :: 0 <= j <= i && rows[j].batteryId == rows[i].batteryId ==> rows[j].thermal == c
    ensures ThermalAvg(rows, i) == c
  {
    var b := rows[i].batteryId;
    var group := OfBattery(rows[..i + 1], b);
    GroupEndsWithRow(rows, i);
    if |group| >= Window {
      var w := group[|group| - Window..];
      forall k | 0 <= k < |w|
        ensures w[k].thermal == c
      {
        assert w[k] in group;
        var j :| 0 <= j < i + 1 && rows[..i + 1][j] == w[k];
        assert rows[j] == w[k];
      }
      ThermalSumConstant(w, c);
    }
  }

  // ---------------------------------------------------------------
  // build_soh_dataset
  // ---------------------------------------------------------------

  /** Row i of the ordered frame as a training example: the four features in
      order, and SOH. */
  function RowExample(rows: seq<BatteryRow>, i: nat): Example
    requires i < |rows|
  {
    Example([rows[i].cycle as real, rows[i].resistance, Growth(rows, i), ThermalAvg(rows, i)], rows[i].soh)
  }

  /** Refuse a frame lacking any required column, naming all of them in order;
      otherwise one example per row of the frame in lifecycle order. */
  function BuildSohDataset(columns: seq<string>, rows: seq<BatteryRow>): (r: Result<seq<Example>, Fault>)
    ensures Missing(RequiredCols, set c | c in columns) != [] ==>
              r == Err(MissingNames(Missing(RequiredCols, set c | c in columns)))
    ensures Missing(RequiredCols, set c | c in columns) == [] ==> r.Ok? && |r.value| == |rows|
    ensures r.Ok? ==> forall i :: 0 <= i < |r.value| ==> |r.value[i].x| == |SohModelFeatures|
    ensures r.Ok? ==> forall i :: 0 <= i < |r.value| ==> r.value[i] == RowExample(Sort(rows), i)
  {
    var missing := Missing(RequiredCols, set c | c in columns);
    if missing != [] then Err(MissingNames(missing))
    else
      var ordered := Sort(rows);
      Ok(seq(|ordered|, i requires 0 <= i < |ordered| => RowExample(ordered, i)))
  }

  /** An example of rows in lifecycle order: the cycle count, the resistance,
      the difference from the row above within a battery (0 on the battery's
      first row), the thermal average, and SOH as the target. */
  lemma RowExampleFacts(ordered: seq<BatteryRow>, i: nat)
    requires Sorted(ordered) && i < |ordered|
    ensures var e := RowExample(ordered, i);
            && e.x[0] == ordered[i].cycle as real && e.x[1] == ordered[i].resistance
            && e.x[2] == (if i > 0 && ordered[i - 1].batteryId == ordered[i].batteryId
                          then ordered[i].resistance - ordered[i - 1].resistance else 0.0)
            && e.x[3] == ThermalAvg(ordered, i)
            && e.y == ordered[i].soh
  {
    AdjacentGrowth(ordered, i);
  }

  /** The training targets are the input's SOH values, rearranged: each
      example comes from a row of the input, and each row gives one example. */
  lemma SohDatasetPermutes(columns: seq<string>, rows: seq<BatteryRow>)
    requires BuildSohDataset(columns, rows).Ok?
    ensures var es := BuildSohDataset(columns, rows).value;
            && (forall i :: 0 <= i < |es| ==> exists j :: 0 <= j < |rows| && es[i].y == rows[j].soh && es[i].x[0] == rows[j].cycle as real)
            && multiset(Sort(rows)) == multiset(rows) && Sorted(Sort(rows))
  {
    var es := BuildSohDataset(columns, rows).value;
    var ordered := Sort(rows);
    forall i | 0 <= i < |es|
      ensures exists j :: 0 <= j < |rows| && es[i].y == rows[j].soh && es[i].x[0] == rows[j].cycle as real
    {
      assert ordered[i] in multiset(ordered);
      assert ordered[i] in rows;
      var j :| 0 <= j < |rows| && rows[j] == ordered[i];
      assert es[i] == RowExample(ordered, i);
    }
  }

  /** Every missing required column is named, and only those. */
  lemma SohDatasetReportsEveryMissingColumn(columns: seq<string>, rows: seq<BatteryRow>, name: string)
    requires BuildSohDataset(columns, rows).Err?
    ensures name in BuildSohDataset(columns, rows).error.names <==> name in RequiredCols && name !in columns
  {
  }
}
