/**
  The storage block (SunSpec 124) decoder and the storage control state
  machine inside it: the measurements, the re-derivation of the cached
  rate limits when the raw control mode changes, the one-time derivation of
  the extended control mode and the calibration failsafe.
 */
module StorageControl {
  import opened Values
  import opened Codec
  import opened HubModel
  import opened Commands

  /** The extended control mode a raw mode and the two signed rate
      registers stand for; the first matching rule wins. None when the raw
      mode is not one of 0..3. */
  function DeriveExtendedMode(raw: int, dischargePower: int, chargePower: int): (e: Option<int>)
    ensures e.None? <==> !(0 <= raw <= 3)
    ensures e.Some? ==> 0 <= e.value <= 7
    ensures e == Some(0) <==> raw == 0
    ensures e == Some(7) <==> (raw == 1 || raw == 3) && chargePower == 0
    ensures e == Some(1) <==> raw == 1 && chargePower != 0
    ensures e == Some(4) <==> (raw == 2 || raw == 3) && dischargePower < 0 && !(raw == 3 && chargePower == 0)
    ensures e == Some(5) <==> (raw == 2 || raw == 3) && dischargePower >= 0 && chargePower < 0
    ensures e == Some(6) <==> (raw == 2 || raw == 3) && dischargePower == 0 && chargePower >= 0
                              && !(raw == 3 && chargePower == 0)
    ensures e == Some(2) <==> raw == 2 && dischargePower > 0 && chargePower >= 0
    ensures e == Some(3) <==> raw == 3 && dischargePower > 0 && chargePower > 0
  {
    if raw == 0 then Some(0)
    else if (raw == 1 || raw == 3) && chargePower == 0 then Some(7)
    else if raw == 1 then Some(1)
    else if (raw == 2 || raw == 3) && dischargePower < 0 then Some(4)
    else if (raw == 2 || raw == 3) && chargePower < 0 then Some(5)
    else if (raw == 2 || raw == 3) && dischargePower == 0 then Some(6)
    else if raw == 2 then Some(2)
    else if raw == 3 then Some(3)
    else None
  }

  /** What the inverter reports back after a preset: its raw mode and the
      INT16 readings of the rate payloads it was sent. */
  function DerivedFromPreset(p: Preset): Option<int>
  {
    var s := PresetSettings(p);
    DeriveExtendedMode(s.mode, Int16(RatePayload(s.dischargeLimit)), Int16(RatePayload(s.chargeLimit)))
  }

  /** Re-deriving the extended mode from what a preset wrote gives back the
      plain presets and block modes, but grid charging reads as blocked
      discharging (6), grid discharging as blocked charging (7) and
      calibration as grid discharging (4). */
  lemma DerivedModeOfPresets()
    ensures DerivedFromPreset(AutoMode) == Some(0) && DerivedFromPreset(RestoreDefaults) == Some(0)
    ensures DerivedFromPreset(ChargeMode) == Some(1)
    ensures DerivedFromPreset(DischargeMode) == Some(2)
    ensures DerivedFromPreset(ChargeDischargeMode) == Some(3)
    ensures DerivedFromPreset(GridChargeMode) == Some(6)
    ensures DerivedFromPreset(GridDischargeMode) == Some(7)
    ensures DerivedFromPreset(BlockDischargeMode) == Some(6)
    ensures DerivedFromPreset(BlockChargeMode) == Some(7)
    ensures DerivedFromPreset(CalibrateMode) == Some(4)
  {
    PresetRatesReadBack(AutoMode);
    PresetRatesReadBack(RestoreDefaults);
    PresetRatesReadBack(ChargeMode);
    PresetRatesReadBack(DischargeMode);
    PresetRatesReadBack(ChargeDischargeMode);
    PresetRatesReadBack(GridChargeMode);
    PresetRatesReadBack(GridDischargeMode);
    PresetRatesReadBack(BlockDischargeMode);
    PresetRatesReadBack(BlockChargeMode);
    PresetRatesReadBack(CalibrateMode);
  }

  /** The measurements of the storage block. */
  function StorageMeasurements(data: map<string, Value>, tables: Tables, r: seq<Word>): map<string, Value>
    requires |r| == 24
  {
    data
      ["grid_charging" := LabelOrNone(tables.chargeGridStatus, r[15])]
      ["charge_status" := LabelOrNone(tables.chargeStatus, r[9])]
      ["minimum_reserve" := Scaled(r[5], -2, 2)]
      ["discharging_power" := Scaled(Int16(r[10]), -2, 2)]
      ["charging_power" := Scaled(Int16(r[11]), -2, 2)]
      ["soc" := Scaled(r[6], -2, 2)]
      ["max_charge" := Scaled(r[0], 0, 0)]
      ["WChaGra" := Scaled(r[1], 0, 0)]
      ["WDisChaGra" := Scaled(r[2], 0, 0)]
  }

  /** The cached limits split one signed rate register into a limit and a
      grid power: the register's own sign picks which one carries it. */
  function SplitRate(data: map<string, Value>, power: int, limitKey: string, gridKey: string): map<string, Value>
  {
    if power >= 0 then data[limitKey := Num(power as real / 100.0)][gridKey := Num(0.0)]
    else data[gridKey := Num((power * -1) as real / 100.0)][limitKey := Num(0.0)]
  }

  /** The debounce of the cached limits: they are re-derived from the rate
      registers only when the stored control mode is missing or differs
      from the label of the raw mode, which is then stored. */
  function Debounce(st: HubState, tables: Tables, raw: int, dischargePower: int, chargePower: int): HubState
  {
    var text := LabelOrNone(tables.storageControlMode, raw);
    var current := Get(st.data, "control_mode");
    if current.Null? || !PyEq(current, text) then
      var d1 := SplitRate(st.data, dischargePower, "discharge_limit", "grid_charge_power");
      var d2 := SplitRate(d1, chargePower, "charge_limit", "grid_discharge_power");
      st.(data := d2["control_mode" := text])
    else st
  }

  /** The one-time derivation: with no stored extended mode, derive it,
      store its label (an unknown mode or label raises) and cache it. The
      value the failsafe then compares is the derived number, or else the
      stored value. */
  function DeriveOnce(st: HubState, tables: Tables, raw: int, dischargePower: int, chargePower: int)
    : Option<(HubState, Value)>
  {
    var stored := Get(st.data, "ext_control_mode");
    if !stored.Null? then Some((st, stored))
    else
      var e := DeriveExtendedMode(raw, dischargePower, chargePower);
      match Lookup(tables.storageExtControlMode, e)
      case None => None
      case Some(text) => Some((Put(st, "ext_control_mode", Str(text)).(extendedMode := e), Num(e.value as real)))
  }

  /** The calibration failsafe, armed when the compared extended mode equals
      7: at 100 % charge in raw mode 2 it commands discharging at full rate
      with the charge rate closed; at 5 % or less in raw mode 3 it returns
      to auto mode with a 30 % reserve and resets the extended mode to 0.
      Comparing a missing or textual charge state with 5 raises. */
  function Failsafe(st: HubState, tables: Tables, raw: int, ext: Value): Step
  {
    var done := Returned(Bool(true));
    if !PyEq(ext, Num(7.0)) then Step(done, st)
    else
      var soc := Get(st.data, "soc");
      if raw == 2 && PyEq(soc, Num(100.0)) then
        Step(done, ChangeSettings(st, Settings(1, 0.0, 100.0, 0.0, 0.0, None)))
      else if raw != 3 then Step(done, st)
      else if NumberOf(soc).None? then Step(Raised, st)
      else if NumberOf(soc).value > 5.0 then Step(done, st)
      else
        var s1 := ApplyPreset(st, AutoMode);
        var s2 := s1.(writes := s1.writes + MinimumReserveWrites(30.0));
        match Lookup(tables.storageExtControlMode, Some(0))
        case None => Step(Raised, s2)
        case Some(text) => Step(done, Put(s2, "ext_control_mode", Str(text)).(extendedMode := Some(0)))
  }

  /** `read_inverter_storage_data`. */
  function ReadStorage(st: HubState, tables: Tables, read: Option<seq<Word>>): Step
    requires ReadShape(read, 24)
  {
    if read.None? then Step(Raised, st)
    else
      var r := read.value;
      var dischargePower, chargePower := Int16(r[10]), Int16(r[11]);
      var s1 := st.(data := StorageMeasurements(st.data, tables, r));
      var s2 := Debounce(s1, tables, r[3], dischargePower, chargePower);
      match DeriveOnce(s2, tables, r[3], dischargePower, chargePower)
      case None => Step(Raised, s2)
      case Some((s3, ext)) => Failsafe(s3, tables, r[3], ext)
  }

  /** A failed read raises and changes nothing. */
  lemma StorageFailedRead(st: HubState, tables: Tables)
    ensures ReadStorage(st, tables, None) == Step(Raised, st)
  {
  }

  /** A stored pair that splits the signed register `power`: the limit and
      the grid power are never negative, at most one of them is non-zero,
      and their difference is the register in percent; so one of them is
      |power|/100 and the other 0. */
  predicate SplitPair(d: map<string, Value>, limitKey: string, gridKey: string, power: int)
  {
    && limitKey in d && gridKey in d && d[limitKey].Num? && d[gridKey].Num?
    && d[limitKey].x >= 0.0 && d[gridKey].x >= 0.0
    && (d[limitKey].x == 0.0 || d[gridKey].x == 0.0)
    && 100.0 * (d[limitKey].x - d[gridKey].x) == power as real
  }

  /** A split stores such a pair and nothing else in the store changes. */
  lemma SplitRateInvariant(data: map<string, Value>, power: int, limitKey: string, gridKey: string)
    requires limitKey != gridKey
    ensures var d := SplitRate(data, power, limitKey, gridKey);
      && SplitPair(d, limitKey, gridKey, power)
      && OthersUnchanged(data, d, {limitKey, gridKey})
  {
  }

  /** When the raw mode's label is the stored control mode, the debounce
      changes nothing; otherwise it stores the label, splits each signed
      rate register into its limit and grid power as above, and leaves every
      other key of the store alone. */
  lemma DebounceEffect(st: HubState, tables: Tables, raw: int, dischargePower: int, chargePower: int)
    ensures var text := LabelOrNone(tables.storageControlMode, raw);
      var current := Get(st.data, "control_mode");
      var s := Debounce(st, tables, raw, dischargePower, chargePower);
      && OnlyDataChanged(st, s)
      && (!current.Null? && PyEq(current, text) ==> s == st)
      && (current.Null? || !PyEq(current, text) ==>
            && "control_mode" in s.data && s.data["control_mode"] == text
            && SplitPair(s.data, "discharge_limit", "grid_charge_power", dischargePower)
            && SplitPair(s.data, "charge_limit", "grid_discharge_power", chargePower)
            && OthersUnchanged(st.data, s.data,
                 {"control_mode", "discharge_limit", "grid_charge_power", "charge_limit", "grid_discharge_power"}))
  {
    SplitRateInvariant(st.data, dischargePower, "discharge_limit", "grid_charge_power");
    var d1 := SplitRate(st.data, dischargePower, "discharge_limit", "grid_charge_power");
    SplitRateInvariant(d1, chargePower, "charge_limit", "grid_discharge_power");
    var d2 := SplitRate(d1, chargePower, "charge_limit", "grid_discharge_power");
    assert SplitPair(d2, "discharge_limit", "grid_charge_power", dischargePower);
  }

  /** The measurements and the debounce leave the stored extended mode,
      the cached mode and the writes alone; the charge state is the
      register in hundredths of a percent. */
  lemma BeforeDerivation(st: HubState, tables: Tables, r: seq<Word>)
    requires |r| == 24
    ensures var s1 := st.(data := StorageMeasurements(st.data, tables, r));
      var s2 := Debounce(s1, tables, r[3], Int16(r[10]), Int16(r[11]));
      && OnlyDataChanged(st, s2)
      && Get(s2.data, "ext_control_mode") == Get(st.data, "ext_control_mode")
      && Get(s2.data, "soc") == Num(r[6] as real / 100.0)
  {
    CalculateValueHundredths(r[6]);
    var s1 := st.(data := StorageMeasurements(st.data, tables, r));
    assert Get(s1.data, "ext_control_mode") == Get(st.data, "ext_control_mode");
    assert Get(s1.data, "soc") == Num(r[6] as real / 100.0);
  }

  /** The storage decoder is the failsafe applied to what the derivation
      returns for the state after the measurements and the debounce. */
  lemma ReadStorageUnfold(st: HubState, tables: Tables, r: seq<Word>)
    requires |r| == 24
    ensures var s1 := st.(data := StorageMeasurements(st.data, tables, r));
      var s2 := Debounce(s1, tables, r[3], Int16(r[10]), Int16(r[11]));
      var d := DeriveOnce(s2, tables, r[3], Int16(r[10]), Int16(r[11]));
      ReadStorage(st, tables, Some(r)) == if d.None? then Step(Raised, s2) else Failsafe(d.value.0, tables, r[3], d.value.1)
  {
  }

  /** Once a textual extended mode is stored, as every path that stores one
      does, the storage decoder neither derives it again nor lets the
      failsafe act: the cached mode, the stored text and the writes stay
      as they were. */
  lemma NoDerivationOnceLabelled(st: HubState, tables: Tables, r: seq<Word>)
    requires |r| == 24
    requires Get(st.data, "ext_control_mode").Str?
    ensures var s := ReadStorage(st, tables, Some(r));
      && s.outcome == Returned(Bool(true))
      && s.state.extendedMode == st.extendedMode
      && s.state.writes == st.writes
      && Get(s.state.data, "ext_control_mode") == Get(st.data, "ext_control_mode")
  {
    BeforeDerivation(st, tables, r);
    ReadStorageUnfold(st, tables, r);
    var s1 := st.(data := StorageMeasurements(st.data, tables, r));
    var s2 := Debounce(s1, tables, r[3], Int16(r[10]), Int16(r[11]));
    var stored := Get(st.data, "ext_control_mode");
    assert DeriveOnce(s2, tables, r[3], Int16(r[10]), Int16(r[11])) == Some((s2, stored));
    assert Failsafe(s2, tables, r[3], stored) == Step(Returned(Bool(true)), s2);
  }

  /** The failsafe branch for raw mode 2 never acts after a derivation:
      mode 7 is derived only from raw modes 1 and 3. */
  lemma DischargeCalibrationUnreachable(st: HubState, tables: Tables, r: seq<Word>)
    requires |r| == 24 && r[3] == 2
    requires !Get(st.data, "ext_control_mode").Num? && !Get(st.data, "ext_control_mode").Bool?
    ensures ReadStorage(st, tables, Some(r)).state.writes == st.writes
  {
    BeforeDerivation(st, tables, r);
    ReadStorageUnfold(st, tables, r);
  }

  /** The failsafe armed in raw mode 3 with a charge state of at most 5 %
      sends auto mode and a 30 % reserve and resets the extended mode to 0. */
  lemma FailsafeAtLowCharge(st: HubState, tables: Tables, soc: real)
    requires Get(st.data, "soc") == Num(soc) && soc <= 5.0
    requires 0 in tables.storageExtControlMode
    ensures var s := Failsafe(st, tables, 3, Num(7.0));
      && s.outcome == Returned(Bool(true))
      && s.state.writes == st.writes + [RegisterWrite(StorageControlModeRegister, 0), RegisterWrite(ChargeRateRegister, 10000),
                                        RegisterWrite(DischargeRateRegister, 10000), RegisterWrite(MinimumReserveRegister, 3000)]
      && s.state.extendedMode == Some(0)
      && "ext_control_mode" in s.state.data
      && s.state.data["ext_control_mode"] == Str(tables.storageExtControlMode[0])
  {
    PresetWrites(AutoMode);
    assert RoundHalfEven(3000.0) == 3000;
    var s1 := ApplyPreset(st, AutoMode);
    assert s1.writes == st.writes + ChangeSettingsWrites(PresetSettings(AutoMode));
    assert MinimumReserveWrites(30.0) == [RegisterWrite(MinimumReserveRegister, 3000)];
  }

  /** A first read in raw mode 3 with the charge rate at 0 derives mode 7,
      stores its label and hands 7 to the failsafe. */
  lemma FirstReadDerivesSeven(st: HubState, tables: Tables, r: seq<Word>)
    requires |r| == 24 && r[3] == 3 && r[11] == 0
    requires !("ext_control_mode" in st.data)
    requires 7 in tables.storageExtControlMode
    ensures var s1 := st.(data := StorageMeasurements(st.data, tables, r));
      var s2 := Debounce(s1, tables, r[3], Int16(r[10]), Int16(r[11]));
      var s3 := Put(s2, "ext_control_mode", Str(tables.storageExtControlMode[7])).(extendedMode := Some(7));
      ReadStorage(st, tables, Some(r)) == Failsafe(s3, tables, 3, Num(7.0))
  {
    BeforeDerivation(st, tables, r);
    ReadStorageUnfold(st, tables, r);
    assert DeriveExtendedMode(3, Int16(r[10]), Int16(r[11])) == Some(7);
  }

  /** The failsafe at the low boundary: a first read in raw mode 3 with the
      charge rate at 0 derives mode 7, and a charge state of at most 5 %
      sends auto mode, full rates and a 30 % reserve, and resets the
      extended mode to 0. */
  lemma CalibrationLowBoundary(st: HubState, tables: Tables, r: seq<Word>)
    requires |r| == 24 && r[3] == 3 && r[11] == 0 && r[6] <= 500
    requires !("ext_control_mode" in st.data)
    requires 0 in tables.storageExtControlMode && 7 in tables.storageExtControlMode
    ensures var s := ReadStorage(st, tables, Some(r));
      && s.outcome == Returned(Bool(true))
      && s.state.writes == st.writes + [RegisterWrite(StorageControlModeRegister, 0), RegisterWrite(ChargeRateRegister, 10000),
                                        RegisterWrite(DischargeRateRegister, 10000), RegisterWrite(MinimumReserveRegister, 3000)]
      && s.state.extendedMode == Some(0)
      && "ext_control_mode" in s.state.data
      && s.state.data["ext_control_mode"] == Str(tables.storageExtControlMode[0])
  {
    FirstReadDerivesSeven(st, tables, r);
    var s1 := st.(data := StorageMeasurements(st.data, tables, r));
    var s2 := Debounce(s1, tables, r[3], Int16(r[10]), Int16(r[11]));
    var s3 := Put(s2, "ext_control_mode", Str(tables.storageExtControlMode[7])).(extendedMode := Some(7));
    var soc := r[6] as real / 100.0;
    assert Get(s3.data, "soc") == Num(soc) by {
      BeforeDerivation(st, tables, r);
    }
    FailsafeAtLowCharge(s3, tables, soc);
  }

  /** Above 5 % the same first read only derives and caches mode 7. */
  lemma CalibrationAboveLowBoundary(st: HubState, tables: Tables, r: seq<Word>)
    requires |r| == 24 && r[3] == 3 && r[11] == 0 && r[6] > 500
    requires !("ext_control_mode" in st.data)
    requires 7 in tables.storageExtControlMode
    ensures var s := ReadStorage(st, tables, Some(r));
      && s.outcome == Returned(Bool(true))
      && s.state.writes == st.writes
      && s.state.extendedMode == Some(7)
      && s.state.data["ext_control_mode"] == Str(tables.storageExtControlMode[7])
  {
    BeforeDerivation(st, tables, r);
    ReadStorageUnfold(st, tables, r);
  }
}
