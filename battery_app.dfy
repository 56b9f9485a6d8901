/** The battery dashboard page (app.py): the form's values, the input record
    built from them, the 20-column model input taken from that record in the
    fixed feature order, and the HIGH/MEDIUM/LOW risk rule. The scaler and the
    two regressors are parameters, None where they raise; the page layout is
    left out. */
module BatteryApp {
  import opened Python

  /** MODEL_FEATURES: the model's column order. */
  const ModelFeatures: seq<string> := [
    "terminal_voltage", "battery_current", "battery_temp", "ambient_temp", "internal_resistance",
    "action_current", "action_voltage", "dT_dt", "dV_dt", "soc_delta",
    "thermal_stress_index", "aging_indicator", "charging_efficiency", "charging_time", "cycle_degradation",
    "over_temp_flag", "over_voltage_flag", "balancing_time", "hour", "dayofweek"]

  /** The seven values the form asks for. */
  datatype Form = Form(terminalVoltage: real, batteryCurrent: real, batteryTemp: real, ambientTemp: real,
                       internalResistance: real, thermalStressIndex: real, chargingEfficiency: real)

  /** The bounds the form's widgets enforce. */
  predicate InFormRange(f: Form)
  {
    && 300.0 <= f.terminalVoltage <= 900.0
    && 0.0 <= f.batteryCurrent <= 500.0
    && 0.0 <= f.batteryTemp <= 80.0
    && 0.0 <= f.ambientTemp <= 60.0
    && 0.0 <= f.internalResistance <= 0.2
    && 0.0 <= f.thermalStressIndex <= 1.0
    && 0.0 <= f.chargingEfficiency <= 1.0
  }

  /** The form as first shown. */
  const DefaultForm: Form := Form(620.0, 120.0, 35.0, 30.0, 0.045, 0.40, 0.92)

  /** int(battery_temp > 45). */
  function OverTempFlag(batteryTemp: real): (flag: int)
    ensures flag == 1 <==> batteryTemp > 45.0
    ensures flag == 0 || flag == 1
  {
    if batteryTemp > 45.0 then 1 else 0
  }

  /** input_data, as its entries in the order the literal lists them. */
  function InputEntries(f: Form): seq<(string, Value)>
  {
    [("terminal_voltage", Float(f.terminalVoltage)),
     ("battery_current", Float(f.batteryCurrent)),
     ("battery_temp", Float(f.batteryTemp)),
     ("ambient_temp", Float(f.ambientTemp)),
     ("internal_resistance", Float(f.internalResistance)),
     ("action_current", Float(f.batteryCurrent)),
     ("action_voltage", Float(f.terminalVoltage)),
     ("dT_dt", Float(0.02)),
     ("dV_dt", Float(-0.01)),
     ("soc_delta", Float(-0.3)),
     ("thermal_stress_index", Float(f.thermalStressIndex)),
     ("aging_indicator", Float(0.25)),
     ("charging_efficiency", Float(f.chargingEfficiency)),
     ("charging_time", Int(45)),
     ("cycle_degradation", Float(0.003)),
     ("over_temp_flag", Int(OverTempFlag(f.batteryTemp))),
     ("over_voltage_flag", Int(0)),
     ("balancing_time", Int(5)),
     ("hour", Int(14)),
     ("dayofweek", Int(2))]
  }

  /** A dict literal: later entries win. */
  function DictOf(entries: seq<(string, Value)>): Record
  {
    if entries == [] then map[]
    else
      var n := |entries| - 1;
      DictOf(entries[..n])[entries[n].0 := entries[n].1]
  }

  /** With distinct keys, each key maps to its own entry's value. */
  lemma {:induction false} DictOfAt(entries: seq<(string, Value)>, i: nat)
    requires i < |entries|
    requires forall j, k :: 0 <= j < k < |entries| ==> entries[j].0 != entries[k].0
    ensures entries[i].0 in DictOf(entries) && DictOf(entries)[entries[i].0] == entries[i].1
  {
    var n := |entries| - 1;
    if i < n {
      assert entries[..n][i] == entries[i];
      DictOfAt(entries[..n], i);
    }
  }

  /** The literal lists the columns in the model's order, each once. */
  lemma EntriesFollowFeatures(f: Form)
    ensures |InputEntries(f)| == |ModelFeatures|
    ensures forall i :: 0 <= i < |ModelFeatures| ==> InputEntries(f)[i].0 == ModelFeatures[i]
    ensures forall j, k :: 0 <= j < k < |ModelFeatures| ==> ModelFeatures[j] != ModelFeatures[k]
  {
  }

  function InputData(f: Form): Record
  {
    DictOf(InputEntries(f))
  }

  /** pd.DataFrame([input_data])[MODEL_FEATURES]: the one row, in the model's
      column order. */
  function ModelRow(f: Form): (row: seq<real>)
    ensures |row| == |ModelFeatures|
  {
    var entries := InputEntries(f);
    assert forall i :: 0 <= i < |entries| ==> IsNumber(entries[i].1);
    seq(|ModelFeatures|, i requires 0 <= i < |ModelFeatures| => NumberOf(entries[i].1))
  }

  /** Column i of the row is the record's value under the i-th feature name:
      selecting the columns by name yields them in the model's order. */
  lemma ModelRowSelectsByName(f: Form, i: nat)
    requires i < |ModelFeatures|
    ensures ModelFeatures[i] in InputData(f) && IsNumber(InputData(f)[ModelFeatures[i]])
    ensures ModelRow(f)[i] == NumberOf(InputData(f)[ModelFeatures[i]])
  {
    EntriesFollowFeatures(f);
    DictOfAt(InputEntries(f), i);
    assert IsNumber(InputEntries(f)[i].1);
  }

  /** The row holds the form's readings in the first five columns. */
  lemma ModelRowFromForm(f: Form)
    ensures var row := ModelRow(f);
            && row[0] == f.terminalVoltage && row[1] == f.batteryCurrent && row[2] == f.batteryTemp
            && row[3] == f.ambientTemp && row[4] == f.internalResistance
  {
  }

  /** The action columns mirror the current and the voltage, and the
      over-temperature flag is 1 exactly above 45 degrees. */
  lemma ModelRowDerived(f: Form)
    ensures var row := ModelRow(f);
            && row[5] == f.batteryCurrent && row[6] == f.terminalVoltage
            && row[10] == f.thermalStressIndex && row[12] == f.chargingEfficiency
            && (row[15] == 1.0 <==> f.batteryTemp > 45.0)
  {
  }

  /** Every other column is the page's fixed operating point. */
  lemma ModelRowConstants(f: Form)
    ensures var row := ModelRow(f);
            && row[7] == 0.02 && row[8] == -0.01 && row[9] == -0.3 && row[11] == 0.25 && row[13] == 45.0
            && row[14] == 0.003 && row[16] == 0.0 && row[17] == 5.0 && row[18] == 14.0 && row[19] == 2.0
  {
  }

  // ---------------------------------------------------------------
  // The risk rule
  // ---------------------------------------------------------------

  datatype Risk = High | Medium | Low

  function RiskOf(thermalStressIndex: real, batteryTemp: real): (r: Risk)
    ensures r == High <==> thermalStressIndex > 0.75 || batteryTemp > 45.0
    ensures r == Medium <==> !(thermalStressIndex > 0.75 || batteryTemp > 45.0) && thermalStressIndex > 0.5
    ensures r == Low <==> thermalStressIndex <= 0.5 && batteryTemp <= 45.0
  {
    if thermalStressIndex > 0.75 || batteryTemp > 45.0 then High
    else if thermalStressIndex > 0.5 then Medium
    else Low
  }

  /** A hotter battery or a higher stress index never lowers the risk, and
      the over-temperature flag is set on every HIGH caused by temperature. */
  lemma RiskMonotone(t1: real, b1: real, t2: real, b2: real)
    requires t1 <= t2 && b1 <= b2
    ensures RiskOf(t1, b1) == High ==> RiskOf(t2, b2) == High
    ensures RiskOf(t1, b1) == Medium ==> RiskOf(t2, b2) != Low
    ensures b1 > 45.0 ==> RiskOf(t1, b1) == High && OverTempFlag(b1) == 1
  {
  }

  // ---------------------------------------------------------------
  // One submission
  // ---------------------------------------------------------------

  datatype Outcome = Outcome(soc: real, soh: real, risk: Risk)

  /** The submitted form: scale the row, predict SOC and SOH from the scaled
      row, classify the risk; None where the scaler or a model raises. */
  function Submit(f: Form, transform: seq<real> -> Option<seq<real>>,
                  socModel: seq<real> -> Option<real>, sohModel: seq<real> -> Option<real>): (o: Option<Outcome>)
    ensures o.Some? <==> transform(ModelRow(f)).Some? && socModel(transform(ModelRow(f)).value).Some?
                         && sohModel(transform(ModelRow(f)).value).Some?
    ensures o.Some? ==> o.value.risk == RiskOf(f.thermalStressIndex, f.batteryTemp)
    ensures o.Some? ==> o.value.soc == socModel(transform(ModelRow(f)).value).value
                        && o.value.soh == sohModel(transform(ModelRow(f)).value).value
  {
    match transform(ModelRow(f))
    case None => None
    case Some(scaled) =>
      match socModel(scaled)
      case None => None
      case Some(soc) =>
        match sohModel(scaled)
        case None => None
        case Some(soh) => Some(Outcome(soc, soh, RiskOf(f.thermalStressIndex, f.batteryTemp)))
  }

  /** The form as first shown is in range and gives a LOW risk. */
  lemma DefaultFormIsLowRisk()
    ensures InFormRange(DefaultForm)
    ensures RiskOf(DefaultForm.thermalStressIndex, DefaultForm.batteryTemp) == Low
  {
  }
}
