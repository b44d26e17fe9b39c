/**
  The command path of the hub: the validated register writes, the encoding
  of charge and discharge rates, `change_settings` and the mode presets.
  Each command is a function from the hub state to the new hub state; the
  Hub class runs them as methods.
 */
module Commands {
  import opened Values
  import opened Codec
  import opened HubModel

  /** `set_storage_control_mode`: one write of the mode when it is one of
      0..3, no write otherwise. */
  function StorageControlModeWrites(mode: int): (w: seq<RegisterWrite>)
    ensures 0 <= mode <= 3 ==> w == [RegisterWrite(StorageControlModeRegister, mode)]
    ensures !(0 <= mode <= 3) ==> w == []
  {
    if mode in {0, 1, 2, 3} then [RegisterWrite(StorageControlModeRegister, mode)] else []
  }

  /** `set_minimum_reserve`: a reserve below 5 % is refused without a write;
      otherwise the reserve in hundredths of a percent is written. */
  function MinimumReserveWrites(reserve: real): (w: seq<RegisterWrite>)
    ensures reserve < 5.0 <==> w == []
    ensures reserve >= 5.0 ==> (|w| == 1 && w[0].register == MinimumReserveRegister
      && reserve * 100.0 - 0.5 <= w[0].payload as real <= reserve * 100.0 + 0.5)
  {
    if reserve < 5.0 then [] else [RegisterWrite(MinimumReserveRegister, RoundHalfEven(reserve * 100.0))]
  }

  /** The payload `set_charge_rate` and `set_discharge_rate` write for a
      rate in percent: a negative rate becomes `int(65536 + rate * 100)`,
      the 16-bit two's complement of the hundredths, and any other rate
      `round(rate * 100)`. */
  function RatePayload(rate: real): (p: int)
  {
    if rate < 0.0 then Trunc(65536.0 + rate * 100.0) else RoundHalfEven(rate * 100.0)
  }

  /** A rate within -100..100 % fits one register, and the inverter's INT16
      reading of it is within one hundredth of a percent of the rate. */
  lemma RatePayloadReadsBack(rate: real)
    requires -100.0 <= rate <= 100.0
    ensures 0 <= RatePayload(rate) < 0x1_0000
    ensures -1.0 < Int16(RatePayload(rate)) as real - rate * 100.0 < 1.0
  {
    if rate < 0.0 {
      var p := RatePayload(rate);
      assert p as real <= 65536.0 + rate * 100.0 < p as real + 1.0;
      assert Int16(p) == p - 0x1_0000;
    }
  }

  /** A whole percentage reads back exactly. */
  lemma RatePayloadExact(k: int)
    requires -100 <= k <= 100
    ensures 0 <= RatePayload(k as real) < 0x1_0000
    ensures Int16(RatePayload(k as real)) == 100 * k
  {
    var y := k as real * 100.0;
    assert y == (100 * k) as real;
    if k < 0 {
      assert 65536.0 + y == (65536 + 100 * k) as real;
      assert Trunc((65536 + 100 * k) as real) == 65536 + 100 * k;
    } else {
      assert RoundHalfEven((100 * k) as real) == 100 * k;
    }
  }

  /** `set_*_rate_w`: watts above the ceiling give 100 %, below minus the
      ceiling -100 %, and in between the share of the ceiling in percent.
      None stands for the ZeroDivisionError of a zero request against a
      zero ceiling. */
  function RateFromWatts(watts: real, max: nat): (rate: Option<real>)
    ensures rate.None? <==> max == 0 && watts == 0.0
    ensures rate.Some? ==> -100.0 <= rate.value <= 100.0
    ensures rate.Some? ==> (rate.value > 0.0 <==> watts > 0.0) && (rate.value < 0.0 <==> watts < 0.0)
    ensures rate.Some? && -(max as real) <= watts <= max as real ==> rate.value * max as real == watts * 100.0
  {
    var m := max as real;
    if watts > m then Some(100.0)
    else if watts < -m then Some(-100.0)
    else if m == 0.0 then None
    else
      ShareOfCeiling(watts, m);
      Some(watts / m * 100.0)
  }

  lemma QuotientOf(a: real, b: real, p: real)
    requires p > 0.0 && a == b * p
    ensures a / p == b
  {
  }

  /** The share `watts / m` of a positive ceiling `m` that `watts` does not
      exceed in size lies in -1..1 and has the sign of `watts`. */
  lemma ShareOfCeiling(watts: real, m: real)
    requires m > 0.0 && -m <= watts <= m
    ensures -1.0 <= watts / m <= 1.0
    ensures (watts / m > 0.0 <==> watts > 0.0) && (watts / m < 0.0 <==> watts < 0.0)
    ensures (watts / m * 100.0) * m == watts * 100.0
  {
    var q := watts / m;
    assert q * m == watts;
    DivMono(-m, watts, m);
    DivMono(watts, m, m);
    QuotientOf(-m, -1.0, m);
    QuotientOf(m, 1.0, m);
    if watts > 0.0 {
      DivMono(0.0, watts, m);
      assert q != 0.0;
    } else if watts < 0.0 {
      DivMono(watts, 0.0, m);
      assert q != 0.0;
    }
  }

  /** The arguments of `change_settings`. */
  datatype Settings = Settings(
    mode: int,
    chargeLimit: real,
    dischargeLimit: real,
    gridChargePower: real,
    gridDischargePower: real,
    minimumReserve: Option<real>)

  /** The writes of `change_settings`: mode, charge rate, discharge rate and
      then the optional reserve. */
  function ChangeSettingsWrites(s: Settings): seq<RegisterWrite>
  {
    StorageControlModeWrites(s.mode)
      + [RegisterWrite(ChargeRateRegister, RatePayload(s.chargeLimit)),
         RegisterWrite(DischargeRateRegister, RatePayload(s.dischargeLimit))]
      + (if s.minimumReserve.Some? then MinimumReserveWrites(s.minimumReserve.value) else [])
  }

  /** `change_settings`: the writes, then the cached limits, where an
      extended mode of 4 zeroes the stored discharge limit and 5 the stored
      charge limit. */
  function ChangeSettings(st: HubState, s: Settings): (r: HubState)
    ensures |r.writes| >= |st.writes| && r.writes[..|st.writes|] == st.writes
    ensures OthersUnchanged(st.data, r.data,
      {"charge_limit", "discharge_limit", "grid_charge_power", "grid_discharge_power"})
    ensures r == st.(data := r.data, writes := r.writes)
  {
    var charge := if st.extendedMode == Some(5) then 0.0 else s.chargeLimit;
    var discharge := if st.extendedMode == Some(4) then 0.0 else s.dischargeLimit;
    st.(writes := st.writes + ChangeSettingsWrites(s),
        data := st.data["charge_limit" := Num(charge)]["discharge_limit" := Num(discharge)]
          ["grid_charge_power" := Num(s.gridChargePower)]["grid_discharge_power" := Num(s.gridDischargePower)])
  }

  /** What `change_settings` leaves behind: the writes in their order, the
      stored limits with the overrides of modes 4 and 5, the grid powers. */
  lemma ChangeSettingsEffect(st: HubState, s: Settings)
    ensures var r := ChangeSettings(st, s);
      var n := |st.writes| + |StorageControlModeWrites(s.mode)|;
      && (0 <= s.mode <= 3 ==> r.writes[|st.writes|] == RegisterWrite(StorageControlModeRegister, s.mode))
      && r.writes[n] == RegisterWrite(ChargeRateRegister, RatePayload(s.chargeLimit))
      && r.writes[n + 1] == RegisterWrite(DischargeRateRegister, RatePayload(s.dischargeLimit))
      && |r.writes| == n + 2 + (if s.minimumReserve.Some? && s.minimumReserve.value >= 5.0 then 1 else 0)
      && (s.minimumReserve.Some? && s.minimumReserve.value >= 5.0 ==>
            r.writes[n + 2] == MinimumReserveWrites(s.minimumReserve.value)[0])
      && r.data["charge_limit"] == Num(if st.extendedMode == Some(5) then 0.0 else s.chargeLimit)
      && r.data["discharge_limit"] == Num(if st.extendedMode == Some(4) then 0.0 else s.dischargeLimit)
      && r.data["grid_charge_power"] == Num(s.gridChargePower)
      && r.data["grid_discharge_power"] == Num(s.gridDischargePower)
  {
  }

  /** The mode presets of the hub, one per `set_*_mode` method and
      `restore_defaults`. */
  datatype Preset =
    | RestoreDefaults
    | AutoMode
    | ChargeMode
    | DischargeMode
    | ChargeDischargeMode
    | GridChargeMode
    | GridDischargeMode
    | BlockDischargeMode
    | BlockChargeMode
    | CalibrateMode

  /** The `change_settings` arguments of each preset. The grid presets pass
      a grid power of 0 and derive the opposite rate limit from it. */
  function PresetSettings(p: Preset): Settings
  {
    match p
    case RestoreDefaults => Settings(0, 100.0, 100.0, 0.0, 0.0, Some(7.0))
    case AutoMode => Settings(0, 100.0, 100.0, 0.0, 0.0, None)
    case ChargeMode => Settings(1, 100.0, 100.0, 0.0, 0.0, None)
    case DischargeMode => Settings(2, 100.0, 100.0, 0.0, 0.0, None)
    case ChargeDischargeMode => Settings(3, 100.0, 100.0, 0.0, 0.0, None)
    case GridChargeMode => Settings(2, 100.0, 0.0 * -1.0, 0.0, 0.0, None)
    case GridDischargeMode => Settings(1, 0.0 * -1.0, 100.0, 0.0, 0.0, None)
    case BlockDischargeMode => Settings(3, 100.0, 0.0, 0.0, 0.0, None)
    case BlockChargeMode => Settings(3, 0.0, 100.0, 0.0, 0.0, None)
    case CalibrateMode => Settings(2, 100.0, -100.0, 100.0, 0.0, None)
  }

  function ApplyPreset(st: HubState, p: Preset): HubState
  {
    ChangeSettings(st, PresetSettings(p))
  }

  /** The register writes of each preset, as payloads: 10000 is 100 %, 55536
      is -100 % in two's complement, and 700 a 7 % reserve. */
  lemma PresetWrites(p: Preset)
    ensures ChangeSettingsWrites(PresetSettings(p)) == match p
      case RestoreDefaults => [RegisterWrite(StorageControlModeRegister, 0), RegisterWrite(ChargeRateRegister, 10000),
                               RegisterWrite(DischargeRateRegister, 10000), RegisterWrite(MinimumReserveRegister, 700)]
      case AutoMode => [RegisterWrite(StorageControlModeRegister, 0), RegisterWrite(ChargeRateRegister, 10000),
                        RegisterWrite(DischargeRateRegister, 10000)]
      case ChargeMode => [RegisterWrite(StorageControlModeRegister, 1), RegisterWrite(ChargeRateRegister, 10000),
                          RegisterWrite(DischargeRateRegister, 10000)]
      case DischargeMode => [RegisterWrite(StorageControlModeRegister, 2), RegisterWrite(ChargeRateRegister, 10000),
                             RegisterWrite(DischargeRateRegister, 10000)]
      case ChargeDischargeMode => [RegisterWrite(StorageControlModeRegister, 3), RegisterWrite(ChargeRateRegister, 10000),
                                   RegisterWrite(DischargeRateRegister, 10000)]
      case GridChargeMode => [RegisterWrite(StorageControlModeRegister, 2), RegisterWrite(ChargeRateRegister, 10000),
                              RegisterWrite(DischargeRateRegister, 0)]
      case GridDischargeMode => [RegisterWrite(StorageControlModeRegister, 1), RegisterWrite(ChargeRateRegister, 0),
                                 RegisterWrite(DischargeRateRegister, 10000)]
      case BlockDischargeMode => [RegisterWrite(StorageControlModeRegister, 3), RegisterWrite(ChargeRateRegister, 10000),
                                  RegisterWrite(DischargeRateRegister, 0)]
      case BlockChargeMode => [RegisterWrite(StorageControlModeRegister, 3), RegisterWrite(ChargeRateRegister, 0),
                               RegisterWrite(DischargeRateRegister, 10000)]
      case CalibrateMode => [RegisterWrite(StorageControlModeRegister, 2), RegisterWrite(ChargeRateRegister, 10000),
                             RegisterWrite(DischargeRateRegister, 55536)]
  {
    RatePayloadExact(100);
    RatePayloadExact(0);
    assert RatePayload(-100.0) == 55536 by {
      assert Trunc(55536.0) == 55536;
    }
    assert RoundHalfEven(700.0) == 700;
  }

  /** Every preset writes a valid mode and rates the inverter reads back as
      exactly 100 times the preset's limits. */
  lemma PresetRatesReadBack(p: Preset)
    ensures var s := PresetSettings(p);
      0 <= s.mode <= 3
      && Int16(RatePayload(s.chargeLimit)) as real == 100.0 * s.chargeLimit
      && Int16(RatePayload(s.dischargeLimit)) as real == 100.0 * s.dischargeLimit
  {
    RatePayloadExact(100);
    RatePayloadExact(0);
    RatePayloadExact(-100);
  }

  /** `set_charge_rate_w` and `set_discharge_rate_w`: one write of the
      encoded rate, or None for the division by a zero ceiling. */
  function RateWattsWrite(watts: real, max: nat, register: Register): (w: Option<RegisterWrite>)
    ensures w.None? <==> max == 0 && watts == 0.0
    ensures w.Some? ==> (w.value.register == register && 0 <= w.value.payload < 0x1_0000
      && -10000 <= Int16(w.value.payload) <= 10000)
  {
    match RateFromWatts(watts, max)
    case None => None
    case Some(rate) =>
      RatePayloadReadsBack(rate);
      Some(RegisterWrite(register, RatePayload(rate)))
  }
}
