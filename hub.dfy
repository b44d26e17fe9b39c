/**
  The hub object: its fields are updated in place by the decoders, the
  commands and the polling cycle. Every method is proved to leave the hub
  in the state, and to end with the outcome, that the matching function of
  the model gives for the state it started from.
 */
module FroniusHub {
  import opened Values
  import opened Codec
  import opened Bitmask
  import opened HubModel
  import opened Commands
  import opened Decoders
  import opened StorageControl
  import opened Meter
  import opened Refresh
  import opened Startup

  /** `change_settings` as its steps run: the three setters, the limits
      (the charge limit stored twice), then the optional reserve. */
  lemma ChangeSettingsInSteps(st: HubState, s: Settings, before: seq<RegisterWrite>,
                              after: seq<RegisterWrite>, data: map<string, Value>)
    requires before == st.writes + StorageControlModeWrites(s.mode)
      + [RegisterWrite(ChargeRateRegister, RatePayload(s.chargeLimit))]
      + [RegisterWrite(DischargeRateRegister, RatePayload(s.dischargeLimit))]
    requires after == before + (if s.minimumReserve.Some? then MinimumReserveWrites(s.minimumReserve.value) else [])
    requires data == st.data["charge_limit" := Num(s.chargeLimit)]
      ["discharge_limit" := Num(if st.extendedMode == Some(4) then 0.0 else s.dischargeLimit)]
      ["charge_limit" := Num(if st.extendedMode == Some(5) then 0.0 else s.chargeLimit)]
      ["grid_charge_power" := Num(s.gridChargePower)]["grid_discharge_power" := Num(s.gridDischargePower)]
    ensures Commands.ChangeSettings(st, s) == st.(writes := after, data := data)
  {
  }

  class Hub {
    var data: map<string, Value>
    var meterConfigured: bool
    var mpptConfigured: bool
    var storageConfigured: bool
    var maxChargeRateW: nat
    var maxDischargeRateW: nat
    var extendedMode: Option<int>
    /** The register writes sent to the inverter, oldest first. */
    var writes: seq<RegisterWrite>
    /** The label tables of the integration's constants. */
    const tables: Tables

    /** The hub's fields as a value. */
    function State(): HubState
      reads this
    {
      HubState(data, meterConfigured, mpptConfigured, storageConfigured,
               maxChargeRateW, maxDischargeRateW, extendedMode, writes)
    }

    constructor(tables: Tables)
      ensures State() == InitialState() && this.tables == tables
    {
      this.tables := tables;
      data := map[];
      meterConfigured := false;
      mpptConfigured := false;
      storageConfigured := false;
      extendedMode := Some(0);
      maxChargeRateW := 11000;
      maxDischargeRateW := 11000;
      writes := [];
    }

    // The command path.

    method SetStorageControlMode(mode: int)
      modifies this
      ensures State() == old(State()).(writes := old(writes) + StorageControlModeWrites(mode))
    {
      if !(mode in {0, 1, 2, 3}) {
        return;
      }
      writes := writes + [RegisterWrite(StorageControlModeRegister, mode)];
    }

    method SetMinimumReserve(reserve: real)
      modifies this
      ensures State() == old(State()).(writes := old(writes) + MinimumReserveWrites(reserve))
    {
      if reserve < 5.0 {
        return;
      }
      var payload := RoundHalfEven(reserve * 100.0);
      writes := writes + [RegisterWrite(MinimumReserveRegister, payload)];
    }

    method SetDischargeRate(rate: real)
      modifies this
      ensures State() == old(State()).(writes := old(writes) + [RegisterWrite(DischargeRateRegister, RatePayload(rate))])
    {
      var payload: int;
      if rate < 0.0 {
        payload := Trunc(65536.0 + rate * 100.0);
      } else {
        payload := RoundHalfEven(rate * 100.0);
      }
      writes := writes + [RegisterWrite(DischargeRateRegister, payload)];
    }

    method SetChargeRate(rate: real)
      modifies this
      ensures State() == old(State()).(writes := old(writes) + [RegisterWrite(ChargeRateRegister, RatePayload(rate))])
    {
      var payload: int;
      if rate < 0.0 {
        payload := Trunc(65536.0 + rate * 100.0);
      } else {
        payload := RoundHalfEven(rate * 100.0);
      }
      writes := writes + [RegisterWrite(ChargeRateRegister, payload)];
    }

    /** `set_discharge_rate_w`; a zero request against a zero ceiling
        raises ZeroDivisionError before anything is written. */
    method SetDischargeRateW(watts: real) returns (o: Outcome)
      modifies this
      ensures var w := RateWattsWrite(watts, old(maxDischargeRateW), DischargeRateRegister);
        && (w.None? ==> o == Raised && State() == old(State()))
        && (w.Some? ==> o == Returned(Null) && State() == old(State()).(writes := old(writes) + [w.value]))
    {
      var max := maxDischargeRateW as real;
      var rate: real;
      if watts > max {
        rate := 100.0;
      } else if watts < max * -1.0 {
        rate := -100.0;
      } else {
        if max == 0.0 {
          return Raised;
        }
        rate := watts / max * 100.0;
      }
      SetDischargeRate(rate);
      return Returned(Null);
    }

    /** `set_charge_rate_w`, the same against the charge ceiling. */
    method SetChargeRateW(watts: real) returns (o: Outcome)
      modifies this
      ensures var w := RateWattsWrite(watts, old(maxChargeRateW), ChargeRateRegister);
        && (w.None? ==> o == Raised && State() == old(State()))
        && (w.Some? ==> o == Returned(Null) && State() == old(State()).(writes := old(writes) + [w.value]))
    {
      var max := maxChargeRateW as real;
      var rate: real;
      if watts > max {
        rate := 100.0;
      } else if watts < max * -1.0 {
        rate := -100.0;
      } else {
        if max == 0.0 {
          return Raised;
        }
        rate := watts / max * 100.0;
      }
      SetChargeRate(rate);
      return Returned(Null);
    }

    method ChangeSettings(s: Settings)
      modifies this
      ensures State() == Commands.ChangeSettings(old(State()), s)
    {
      ghost var st := State();
      SetStorageControlMode(s.mode);
      SetChargeRate(s.chargeLimit);
      SetDischargeRate(s.dischargeLimit);
      data := data["charge_limit" := Num(s.chargeLimit)];
      if extendedMode == Some(4) {
        data := data["discharge_limit" := Num(0.0)];
      } else {
        data := data["discharge_limit" := Num(s.dischargeLimit)];
      }
      if extendedMode == Some(5) {
        data := data["charge_limit" := Num(0.0)];
      } else {
        data := data["charge_limit" := Num(s.chargeLimit)];
      }
      data := data["grid_charge_power" := Num(s.gridChargePower)];
      data := data["grid_discharge_power" := Num(s.gridDischargePower)];
      ghost var before := writes;
      if s.minimumReserve.Some? {
        SetMinimumReserve(s.minimumReserve.value);
      }
      ChangeSettingsInSteps(st, s, before, writes, data);
    }

    /** `restore_defaults` and the `set_*_mode` presets. */
    method RunPreset(p: Preset)
      modifies this
      ensures State() == ApplyPreset(old(State()), p)
    {
      ChangeSettings(PresetSettings(p));
    }

    // The block decoders.

    method ReadDeviceInfoData(prefix: string, read: Option<seq<Word>>) returns (o: Outcome)
      requires ReadShape(read, 65)
      modifies this
      ensures Step(o, State()) == ReadDeviceInfo(old(State()), prefix, read)
    {
      if read.None? {
        return Raised;
      }
      var r := read.value;
      data := data[prefix + "manufacturer" := Str(RegisterString(r[0..16]))];
      data := data[prefix + "model" := Str(RegisterString(r[16..32]))];
      data := data[prefix + "options" := Str(RegisterString(r[32..40]))];
      data := data[prefix + "sw_version" := Str(RegisterString(r[40..48]))];
      data := data[prefix + "serial" := Str(RegisterString(r[48..64]))];
      data := data[prefix + "unit_id" := Num(r[64] as real)];
      return Returned(Bool(true));
    }

    method ReadInverterData(read: Option<seq<Word>>) returns (o: Outcome)
      requires ReadShape(read, 50)
      modifies this
      ensures Step(o, State()) == ReadInverter(old(State()), tables, read)
    {
      if read.None? {
        return Raised;
      }
      var r := read.value;
      var vsf := Int16(r[11]);
      data := data["PPVphAB" := Scaled(r[5], vsf, 2)];
      data := data["PPVphBC" := Scaled(r[6], vsf, 2)];
      data := data["PPVphCA" := Scaled(r[7], vsf, 2)];
      data := data["PhVphA" := Scaled(r[8], vsf, 2)];
      data := data["PhVphB" := Scaled(r[9], vsf, 2)];
      data := data["PhVphC" := Scaled(r[10], vsf, 2)];
      data := data["tempcab" := Scaled(Int16(r[31]), Int16(r[35]), 2)];
      data := data["acpower" := Scaled(Int16(r[12]), Int16(r[13]), 2)];
      data := data["line_frequency" := Scaled(Int16(r[14]), Int16(r[15]), 2)];
      data := data["acenergy" := Scaled(Uint32(r[22], r[23]), Int16(r[24]), 2)];
      var status := Lookup(tables.froniusInverterStatus, Some(r[37]));
      if status.None? {
        return Raised;
      }
      data := data["statusvendor" := Str(status.value)];
      data := data["statusvendor_id" := Num(r[37] as real)];
      var events := BitmaskToString(Uint32(r[44], r[45]), tables.inverterEvents, "None", 255, 32);
      data := data["events2" := Str(events)];
      return Returned(Bool(true));
    }

    method ReadNameplateData(read: Option<seq<Word>>) returns (o: Outcome)
      requires ReadShape(read, 120)
      modifies this
      ensures Step(o, State()) == ReadNameplate(old(State()), read)
    {
      if read.None? {
        return Raised;
      }
      var r := read.value;
      if r[0] == 82 {
        storageConfigured := true;
      }
      data := data["WHRtg" := Num(r[17] as real)];
      data := data["MaxChaRte" := Num(r[21] as real)];
      data := data["MaxDisChaRte" := Num(r[23] as real)];
      maxChargeRateW := r[21];
      maxDischargeRateW := r[23];
      return Returned(Bool(true));
    }

    method ReadStatusData(read: Option<seq<Word>>) returns (o: Outcome)
      requires ReadShape(read, 44)
      modifies this
      ensures Step(o, State()) == ReadStatus(old(State()), tables, read)
    {
      if read.None? {
        return Raised;
      }
      var r := read.value;
      var pv := Lookup(tables.connectionStatusCondensed, Some(r[0]));
      if pv.None? {
        return Raised;
      }
      data := data["pv_connection" := Str(pv.value)];
      var storage := Lookup(tables.connectionStatusCondensed, Some(r[1]));
      if storage.None? {
        return Raised;
      }
      data := data["storage_connection" := Str(storage.value)];
      var ecp := Lookup(tables.ecpConnectionStatus, Some(r[2]));
      if ecp.None? {
        return Raised;
      }
      data := data["ecp_connection" := Str(ecp.value)];
      var controls := BitmaskToString(Uint32(r[33], r[34]), tables.inverterControls, "Normal", 255, 16);
      data := data["inverter_controls" := Str(controls)];
      return Returned(Bool(true));
    }

    method ReadSettingsData(read: Option<seq<Word>>) returns (o: Outcome)
      requires ReadShape(read, 30)
      modifies this
      ensures Step(o, State()) == ReadSettings(old(State()), read)
    {
      if read.None? {
        return Raised;
      }
      var r := read.value;
      data := data["max_power" := Scaled(r[0], Int16(r[20]), 2)];
      return Returned(Bool(true));
    }

    method ReadControlsData(read: Option<seq<Word>>) returns (o: Outcome)
      requires ReadShape(read, 24)
      modifies this
      ensures Step(o, State()) == ReadControls(old(State()), tables, read)
    {
      if read.None? {
        return Raised;
      }
      var r := read.value;
      var conn := Lookup(tables.controlStatus, Some(r[2]));
      if conn.None? {
        return Raised;
      }
      data := data["Conn" := Str(conn.value)];
      var wmax := Lookup(tables.controlStatus, Some(r[7]));
      if wmax.None? {
        return Raised;
      }
      data := data["WMaxLim_Ena" := Str(wmax.value)];
      var pf := Lookup(tables.controlStatus, Some(r[12]));
      if pf.None? {
        return Raised;
      }
      data := data["OutPFSet_Ena" := Str(pf.value)];
      var varpct := Lookup(tables.controlStatus, Some(Int16(r[20])));
      if varpct.None? {
        return Raised;
      }
      data := data["VArPct_Ena" := Str(varpct.value)];
      return Returned(Bool(true));
    }

    method ReadMpptData(read: Option<seq<Word>>) returns (o: Outcome)
      requires ReadShape(read, 88)
      modifies this
      ensures Step(o, State()) == ReadMppt(old(State()), read)
    {
      if read.None? {
        return Raised;
      }
      var r := read.value;
      var dcwSf, dcwhSf := Int16(r[2]), Int16(r[3]);
      if r[6] != 4 {
        return Returned(Null);
      }
      var p1, p2 := Scaled(r[19], dcwSf, 2), Scaled(r[39], dcwSf, 2);
      var p3, p4 := Scaled(r[59], dcwSf, 2), Scaled(r[79], dcwSf, 2);
      var pvPower, storagePower := Num(p1.x + p2.x), Num(p4.x - p3.x);
      var e1, e2 := Scaled(Uint32(r[20], r[21]), dcwhSf, 2), Scaled(Uint32(r[40], r[41]), dcwhSf, 2);
      var e3, e4 := Scaled(Uint32(r[60], r[61]), dcwhSf, 2), Scaled(Uint32(r[80], r[81]), dcwhSf, 2);
      var d := data;
      d := d["mppt1_power" := p1]["mppt2_power" := p2]["mppt3_power" := p3]["mppt4_power" := p4];
      d := d["pv_power" := pvPower]["storage_power" := storagePower];
      d := d["mppt1_lfte" := e1]["mppt2_lfte" := e2]["mppt3_lfte" := e3]["mppt4_lfte" := e4];
      data := d;
      return Returned(Bool(true));
    }

    method ReadMeterData(prefix: string, read: Option<seq<Word>>) returns (o: Outcome)
      requires ReadShape(read, 103)
      modifies this
      ensures Step(o, State()) == ReadMeter(old(State()), tables, prefix, read)
    {
      if read.None? {
        return Raised;
      }
      var r := read.value;
      var vsf := Int16(r[13]);
      var power := Scaled(Int16(r[16]), Int16(r[20]), 2);
      var meterFrequency := Scaled(Int16(r[14]), Int16(r[15]), 2);
      data := data[prefix + "PhVphA" := Scaled(Int16(r[6]), vsf, 1)];
      data := data[prefix + "PhVphB" := Scaled(Int16(r[7]), vsf, 1)];
      data := data[prefix + "PhVphC" := Scaled(Int16(r[8]), vsf, 1)];
      data := data[prefix + "PPV" := Scaled(Int16(r[9]), vsf, 1)];
      data := data[prefix + "exported" := Scaled(Uint32(r[36], r[37]), Int16(r[52]), 2)];
      data := data[prefix + "imported" := Scaled(Uint32(r[44], r[45]), Int16(r[52]), 2)];
      data := data[prefix + "line_frequency" := meterFrequency];
      data := data[prefix + "power" := power];
      if prefix == "m1_" {
        var inverterPower := Get(data, "acpower");
        if inverterPower.Num? {
          data := data["load" := Num(Round(power.x + inverterPower.x, 2))];
        }
        if "line_frequency" !in data {
          return Raised;
        }
        var code := GridStatusCode(data["line_frequency"], meterFrequency);
        data := data["grid_status" := GridStatusValue(tables, code)];
      }
      return Returned(Bool(true));
    }

    /** The debounce of the cached limits in `read_inverter_storage_data`. */
    method UpdateCachedLimits(raw: int, dischargePower: int, chargePower: int)
      modifies this
      ensures State() == Debounce(old(State()), tables, raw, dischargePower, chargePower)
    {
      var text := LabelOrNone(tables.storageControlMode, raw);
      var current := Get(data, "control_mode");
      if !current.Null? && PyEq(current, text) {
        return;
      }
      if dischargePower >= 0 {
        data := data["discharge_limit" := Num(dischargePower as real / 100.0)];
        data := data["grid_charge_power" := Num(0.0)];
      } else {
        data := data["grid_charge_power" := Num((dischargePower * -1) as real / 100.0)];
        data := data["discharge_limit" := Num(0.0)];
      }
      if chargePower >= 0 {
        data := data["charge_limit" := Num(chargePower as real / 100.0)];
        data := data["grid_discharge_power" := Num(0.0)];
      } else {
        data := data["grid_discharge_power" := Num((chargePower * -1) as real / 100.0)];
        data := data["charge_limit" := Num(0.0)];
      }
      data := data["control_mode" := text];
    }

    /** The one-time derivation of the extended mode: the value the
        failsafe compares, or None when the derived mode has no label and
        the lookup raises. */
    method DeriveExtendedModeOnce(raw: int, dischargePower: int, chargePower: int) returns (ext: Option<Value>)
      modifies this
      ensures var d := DeriveOnce(old(State()), tables, raw, dischargePower, chargePower);
        && (d.None? ==> ext.None? && State() == old(State()))
        && (d.Some? ==> ext == Some(d.value.1) && State() == d.value.0)
    {
      var stored := Get(data, "ext_control_mode");
      if !stored.Null? {
        return Some(stored);
      }
      var e := DeriveExtendedMode(raw, dischargePower, chargePower);
      var name := Lookup(tables.storageExtControlMode, e);
      if name.None? {
        return None;
      }
      data := data["ext_control_mode" := Str(name.value)];
      extendedMode := e;
      return Some(Num(e.value as real));
    }

    /** The calibration failsafe at the end of `read_inverter_storage_data`. */
    method CalibrationFailsafe(raw: int, ext: Value) returns (o: Outcome)
      modifies this
      ensures Step(o, State()) == Failsafe(old(State()), tables, raw, ext)
    {
      if !PyEq(ext, Num(7.0)) {
        return Returned(Bool(true));
      }
      var soc := Get(data, "soc");
      if raw == 2 && PyEq(soc, Num(100.0)) {
        ChangeSettings(Settings(1, 0.0, 100.0, 0.0, 0.0, None));
      } else if raw == 3 {
        if NumberOf(soc).None? {
          return Raised;
        }
        if NumberOf(soc).value <= 5.0 {
          RunPreset(AutoMode);
          SetMinimumReserve(30.0);
          var name := Lookup(tables.storageExtControlMode, Some(0));
          if name.None? {
            return Raised;
          }
          data := data["ext_control_mode" := Str(name.value)];
          extendedMode := Some(0);
        }
      }
      return Returned(Bool(true));
    }

    method ReadStorageData(read: Option<seq<Word>>) returns (o: Outcome)
      requires ReadShape(read, 24)
      modifies this
      ensures Step(o, State()) == ReadStorage(old(State()), tables, read)
    {
      if read.None? {
        return Raised;
      }
      var r := read.value;
      ReadStorageUnfold(State(), tables, r);
      var raw, dischargePower, chargePower := r[3], Int16(r[10]), Int16(r[11]);
      data := StorageMeasurements(data, tables, r);
      UpdateCachedLimits(raw, dischargePower, chargePower);
      var ext := DeriveExtendedModeOnce(raw, dischargePower, chargePower);
      if ext.None? {
        return Raised;
      }
      o := CalibrationFailsafe(raw, ext.value);
    }

    // The start-up probe.

    /** The meter loop of `init_data`: meter i's common block under `m{i}_`,
        each behind its own handler. */
    method ReadMeterInfos(infos: seq<Option<seq<Word>>>)
      requires MeterInfosShaped(infos) && |infos| <= 5
      modifies this
      ensures State() == MeterInfos(old(State()), infos, 1)
    {
      var i := 0;
      while i < |infos|
        invariant 0 <= i <= |infos|
        invariant MeterInfosShaped(infos[i..])
        invariant MeterInfos(State(), infos[i..], i + 1) == MeterInfos(old(State()), infos, 1)
      {
        assert infos[i..][1..] == infos[i + 1..];
        var _ := ReadDeviceInfoData(MeterPrefix(i + 1), infos[i]);
        i := i + 1;
      }
    }

    /** `init_data`, without the storage metadata fetch. */
    method InitData(probe: StartupReads) returns (o: Outcome)
      requires StartupShaped(probe)
      modifies this
      ensures Step(o, State()) == Startup.InitData(old(State()), probe)
    {
      var result := ReadDeviceInfoData("i_", probe.inverterInfo);
      if result.Raised? || result == Returned(Bool(false)) {
        return Raised;
      }
      var found := ReadMpptData(probe.mppt);
      if found.Returned? && Truthy(found.value) {
        mpptConfigured := true;
      }
      if |probe.meterInfos| > 5 {
        return Returned(Null);
      }
      if |probe.meterInfos| > 0 {
        meterConfigured := true;
      }
      ReadMeterInfos(probe.meterInfos);
      var np := ReadNameplateData(probe.nameplate);
      if np.Raised? {
        return Raised;
      }
      return Returned(Bool(true));
    }

    // The polling cycle.

    /** `_refresh_modbus_data`: the decoders in order, each behind its own
        handler, with `result` playing `update_result`. */
    method RefreshModbusData(subscribed: bool, connected: bool, cycle: CycleReads) returns (result: Value)
      requires WellShaped(cycle)
      modifies this
      ensures Progress(result, State()) == RefreshCycle(old(State()), tables, subscribed, connected, cycle)
    {
      if !subscribed || !connected {
        return Bool(false);
      }
      var o := ReadInverterData(cycle.inverter);
      result := ResultOf(o);
      o := ReadStatusData(cycle.status);
      result := ResultOf(o);
      o := ReadSettingsData(cycle.settings);
      result := ResultOf(o);
      o := ReadControlsData(cycle.controls);
      result := ResultOf(o);
      ghost var p := Progress(result, State());
      assert p == InverterPhase(old(State()), tables, cycle);

      if meterConfigured {
        var i := 0;
        while i < |cycle.meters|
          invariant 0 <= i <= |cycle.meters|
          invariant MeterReadsShaped(cycle.meters[i..])
          invariant RunMeters(Progress(result, State()), tables, cycle.meters[i..]) == RunMeters(p, tables, cycle.meters)
        {
          assert cycle.meters[i..][1..] == cycle.meters[i + 1..];
          o := ReadMeterData("m1_", cycle.meters[i]);
          if o.Returned? {
            result := o.value;
          }
          i := i + 1;
        }
      }
      assert Progress(result, State()) == if p.state.meterConfigured then RunMeters(p, tables, cycle.meters) else p;

      if mpptConfigured {
        o := ReadMpptData(cycle.mppt);
        result := ResultOf(o);
      }
      assert Progress(result, State()) == OptionalPhase(p, tables, cycle);

      if storageConfigured {
        o := ReadStorageData(cycle.storage);
        result := ResultOf(o);
      }
    }

    /** `async_refresh_modbus_data`: run a cycle and call back every
        subscriber only when its result is truthy. */
    method AsyncRefreshModbusData(subscribers: nat, connected: bool, cycle: CycleReads) returns (notified: nat)
      requires WellShaped(cycle)
      modifies this
      ensures var p := RefreshCycle(old(State()), tables, subscribers > 0, connected, cycle);
        State() == p.state && notified == (if Truthy(p.result) then subscribers else 0)
    {
      var result := RefreshModbusData(subscribers > 0, connected, cycle);
      notified := if Truthy(result) then subscribers else 0;
    }
  }
}
