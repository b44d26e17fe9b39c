/**
  The storage mode select entity: it shows the stored extended control
  mode label and, when the user picks a label, runs the matching preset
  on the hub, stores the label and caches the picked mode number.
 */
module Select {
  import opened Values
  import opened HubModel
  import opened Commands
  import opened FroniusHub

  /** The first key of the option table, in its iteration order, whose
      label is `search`; None when no entry carries it. */
  function FirstKey(options: seq<(int, string)>, search: string): Option<int>
  {
    if options == [] then None
    else if options[0].1 == search then Some(options[0].0)
    else FirstKey(options[1..], search)
  }

  /** FirstKey finds a key exactly when some entry carries the label, and
      the key it finds is that of the first such entry. */
  lemma {:induction false} FirstKeySpec(options: seq<(int, string)>, search: string)
    ensures FirstKey(options, search).None? <==> forall i :: 0 <= i < |options| ==> options[i].1 != search
    ensures FirstKey(options, search).Some? ==>
      exists i :: 0 <= i < |options| && options[i] == (FirstKey(options, search).value, search)
        && forall j :: 0 <= j < i ==> options[j].1 != search
  {
    if options != [] && options[0].1 != search {
      FirstKeySpec(options[1..], search);
      var k := FirstKey(options, search);
      if k.Some? {
        var i :| 0 <= i < |options[1..]| && options[1..][i] == (k.value, search)
          && forall j :: 0 <= j < i ==> options[1..][j].1 != search;
        assert options[i + 1] == (k.value, search);
        assert forall j :: 0 <= j < i + 1 ==> options[j].1 != search by {
          forall j | 0 <= j < i + 1 ensures options[j].1 != search {
            if j > 0 {
              assert options[j] == options[1..][j - 1];
            }
          }
        }
      } else {
        forall i | 0 <= i < |options| ensures options[i].1 != search {
          if i > 0 {
            assert options[i] == options[1..][i - 1];
          }
        }
      }
    } else if options != [] {
      assert options[0] == (FirstKey(options, search).value, search);
    }
  }

  /** `get_key`: the loop over the table's items that returns the first key
      whose label matches. */
  method GetKey(options: seq<(int, string)>, search: string) returns (k: Option<int>)
    ensures k == FirstKey(options, search)
  {
    var i := 0;
    while i < |options|
      invariant 0 <= i <= |options|
      invariant FirstKey(options[i..], search) == FirstKey(options, search)
    {
      assert options[i..][1..] == options[i + 1..];
      if options[i].1 == search {
        return Some(options[i].0);
      }
      i := i + 1;
    }
    return None;
  }

  /** The hub preset run for a selected mode number: 0 auto, 1 charge,
      2 discharge, 3 charge/discharge, 4 grid charge, 5 grid discharge,
      6 block discharge, 7 block charge, 8 calibrate; none otherwise. */
  function PresetOf(mode: Option<int>): (p: Option<Preset>)
    ensures p.Some? <==> mode.Some? && 0 <= mode.value <= 8
    ensures p.Some? ==> p.value != RestoreDefaults
  {
    if mode == Some(0) then Some(AutoMode)
    else if mode == Some(1) then Some(ChargeMode)
    else if mode == Some(2) then Some(DischargeMode)
    else if mode == Some(3) then Some(ChargeDischargeMode)
    else if mode == Some(4) then Some(GridChargeMode)
    else if mode == Some(5) then Some(GridDischargeMode)
    else if mode == Some(6) then Some(BlockDischargeMode)
    else if mode == Some(7) then Some(BlockChargeMode)
    else if mode == Some(8) then Some(CalibrateMode)
    else None
  }

  /** Distinct mode numbers select distinct presets. */
  lemma PresetOfInjective(m1: Option<int>, m2: Option<int>)
    requires PresetOf(m1).Some? && PresetOf(m1) == PresetOf(m2)
    ensures m1 == m2
  {
  }

  /** `async_select_option` on the hub's state: the preset of the picked
      mode (none for a label the table lacks), then the label under the
      entity's key and the picked mode, or None, as the cached mode. */
  function SelectionEffect(st: HubState, options: seq<(int, string)>, key: string, option: string): HubState
  {
    var mode := FirstKey(options, option);
    var s1 := match PresetOf(mode) case None => st case Some(p) => ApplyPreset(st, p);
    Put(s1, key, Str(option)).(extendedMode := mode)
  }

  /** Picking a label of the table runs its preset's writes, shows the
      label and caches its mode number. */
  lemma SelectKnownOption(st: HubState, options: seq<(int, string)>, key: string, option: string, k: int)
    requires FirstKey(options, option) == Some(k) && 0 <= k <= 8
    ensures var s := SelectionEffect(st, options, key, option);
      && s.writes == st.writes + ChangeSettingsWrites(PresetSettings(PresetOf(Some(k)).value))
      && s.extendedMode == Some(k)
      && Get(s.data, key) == Str(option)
      && s.meterConfigured == st.meterConfigured && s.storageConfigured == st.storageConfigured
  {
  }

  /** Picking a label the table lacks writes nothing, still stores the
      label and leaves no cached mode. */
  lemma SelectUnknownOption(st: HubState, options: seq<(int, string)>, key: string, option: string)
    requires forall i :: 0 <= i < |options| ==> options[i].1 != option
    ensures var s := SelectionEffect(st, options, key, option);
      && s.writes == st.writes
      && s.extendedMode.None?
      && s.data == st.data[key := Str(option)]
  {
    FirstKeySpec(options, option);
  }

  /** The preset runs before the picked mode is cached, so the overrides of
      `change_settings` follow the mode that was active before: leaving
      mode 4 for auto stores a discharge limit of 0 although 100 % is
      written. */
  lemma SelectUsesPreviousMode(st: HubState, options: seq<(int, string)>, key: string, option: string)
    requires st.extendedMode == Some(4) && FirstKey(options, option) == Some(0)
    requires key != "discharge_limit"
    ensures var s := SelectionEffect(st, options, key, option);
      && s.data["discharge_limit"] == Num(0.0)
      && s.writes[|s.writes| - 1] == RegisterWrite(DischargeRateRegister, 10000)
      && s.extendedMode == Some(0)
  {
    PresetWrites(AutoMode);
  }

  /** The select entity of one storage option table. */
  class FroniusModbusSelect {
    const hub: Hub
    const key: string
    /** The option table: mode number and label, in iteration order. */
    const options: seq<(int, string)>

    constructor(hub: Hub, key: string, options: seq<(int, string)>)
      ensures this.hub == hub && this.key == key && this.options == options
    {
      this.hub := hub;
      this.key := key;
      this.options := options;
    }

    /** `current_option`: the stored value under the key, or None. */
    function CurrentOption(): Value
      reads hub
    {
      Get(hub.data, key)
    }

    /** `async_select_option`. */
    method SelectOption(option: string)
      modifies hub
      ensures hub.State() == SelectionEffect(old(hub.State()), options, key, option)
      ensures CurrentOption() == Str(option)
    {
      var newMode := GetKey(options, option);
      if newMode == Some(0) {
        hub.RunPreset(AutoMode);
      } else if newMode == Some(1) {
        hub.RunPreset(ChargeMode);
      } else if newMode == Some(2) {
        hub.RunPreset(DischargeMode);
      } else if newMode == Some(3) {
        hub.RunPreset(ChargeDischargeMode);
      } else if newMode == Some(4) {
        hub.RunPreset(GridChargeMode);
      } else if newMode == Some(5) {
        hub.RunPreset(GridDischargeMode);
      } else if newMode == Some(6) {
        hub.RunPreset(BlockDischargeMode);
      } else if newMode == Some(7) {
        hub.RunPreset(BlockChargeMode);
      } else if newMode == Some(8) {
        hub.RunPreset(CalibrateMode);
      }
      hub.data := hub.data[key := Str(option)];
      hub.extendedMode := newMode;
    }
  }
}
