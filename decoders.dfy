/**
  The SunSpec block decoders of the hub, as functions from a register read
  and the hub state to the call's outcome and the new state: common block
  (device info), inverter block 103, nameplate 120, basic settings 121,
  extended measurements and status 122, immediate controls 123 and the
  multiple MPPT block 160. A failed read (`None` here) raises before the
  decoder runs: `get_registers` formats an attribute the hub never sets on
  every error path, and its retry omits the unit id, so the decoders' own
  checks for a missing read are never reached.
 */
module Decoders {
  import opened Values
  import opened Codec
  import opened Bitmask
  import opened HubModel

  /** `get_string_from_registers`. */
  function RegisterString(words: seq<Word>): string
  {
    StripEscapes(DecodeString(words))
  }

  /** `read_device_info_data`: manufacturer, model, options, version and
      serial number as cleaned strings, and the device's unit id. */
  function ReadDeviceInfo(st: HubState, prefix: string, read: Option<seq<Word>>): Step
    requires ReadShape(read, 65)
  {
    if read.None? then Step(Raised, st)
    else
      var r := read.value;
      var data := st.data
        [prefix + "manufacturer" := Str(RegisterString(r[0..16]))]
        [prefix + "model" := Str(RegisterString(r[16..32]))]
        [prefix + "options" := Str(RegisterString(r[32..40]))]
        [prefix + "sw_version" := Str(RegisterString(r[40..48]))]
        [prefix + "serial" := Str(RegisterString(r[48..64]))]
        [prefix + "unit_id" := Num(r[64] as real)];
      Step(Returned(Bool(true)), st.(data := data))
  }

  /** The ten scaled measurements of the inverter block, stored before the
      vendor status is looked up. */
  function InverterMeasurements(data: map<string, Value>, r: seq<Word>): map<string, Value>
    requires |r| == 50
  {
    var vsf := Int16(r[11]);
    data
      ["PPVphAB" := Scaled(r[5], vsf, 2)]
      ["PPVphBC" := Scaled(r[6], vsf, 2)]
      ["PPVphCA" := Scaled(r[7], vsf, 2)]
      ["PhVphA" := Scaled(r[8], vsf, 2)]
      ["PhVphB" := Scaled(r[9], vsf, 2)]
      ["PhVphC" := Scaled(r[10], vsf, 2)]
      ["tempcab" := Scaled(Int16(r[31]), Int16(r[35]), 2)]
      ["acpower" := Scaled(Int16(r[12]), Int16(r[13]), 2)]
      ["line_frequency" := Scaled(Int16(r[14]), Int16(r[15]), 2)]
      ["acenergy" := Scaled(Uint32(r[22], r[23]), Int16(r[24]), 2)]
  }

  /** `read_inverter_data`: the measurements, then the vendor status (a
      code missing from the status table raises), its code and the vendor
      event bits of the 32-bit event word. */
  function ReadInverter(st: HubState, tables: Tables, read: Option<seq<Word>>): Step
    requires ReadShape(read, 50)
  {
    if read.None? then Step(Raised, st)
    else
      var r := read.value;
      var s1 := st.(data := InverterMeasurements(st.data, r));
      match Lookup(tables.froniusInverterStatus, Some(r[37]))
      case None => Step(Raised, s1)
      case Some(status) =>
        var events := BitmaskText(Uint32(r[44], r[45]), tables.inverterEvents, "None", 255, 32);
        Step(Returned(Bool(true)), s1.(data := s1.data
          ["statusvendor" := Str(status)]
          ["statusvendor_id" := Num(r[37] as real)]
          ["events2" := Str(events)]))
  }

  /** `read_inverter_nameplate_data`: a DER type of 82 (PV with storage)
      turns storage on; the rating and the two rate ceilings are stored and
      become the hub's ceilings. */
  function ReadNameplate(st: HubState, read: Option<seq<Word>>): Step
    requires ReadShape(read, 120)
  {
    if read.None? then Step(Raised, st)
    else
      var r := read.value;
      var s1 := if r[0] == 82 then st.(storageConfigured := true) else st;
      var data := s1.data
        ["WHRtg" := Num(r[17] as real)]
        ["MaxChaRte" := Num(r[21] as real)]
        ["MaxDisChaRte" := Num(r[23] as real)];
      Step(Returned(Bool(true)), s1.(data := data, maxChargeRateW := r[21], maxDischargeRateW := r[23]))
  }

  /** `read_inverter_status_data`: the PV, storage and ECP connection
      labels, each looked up with `[]` in turn, then the active controls
      from the low 16 bits of the 32-bit control word. */
  function ReadStatus(st: HubState, tables: Tables, read: Option<seq<Word>>): Step
    requires ReadShape(read, 44)
  {
    if read.None? then Step(Raised, st)
    else
      var r := read.value;
      match Lookup(tables.connectionStatusCondensed, Some(r[0]))
      case None => Step(Raised, st)
      case Some(pv) =>
        var s1 := Put(st, "pv_connection", Str(pv));
        match Lookup(tables.connectionStatusCondensed, Some(r[1]))
        case None => Step(Raised, s1)
        case Some(storage) =>
          var s2 := Put(s1, "storage_connection", Str(storage));
          match Lookup(tables.ecpConnectionStatus, Some(r[2]))
          case None => Step(Raised, s2)
          case Some(ecp) =>
            var s3 := Put(s2, "ecp_connection", Str(ecp));
            var controls := BitmaskText(Uint32(r[33], r[34]), tables.inverterControls, "Normal", 255, 16);
            Step(Returned(Bool(true)), Put(s3, "inverter_controls", Str(controls)))
  }

  /** `read_inverter_model_settings_data`: the maximum power, scaled. */
  function ReadSettings(st: HubState, read: Option<seq<Word>>): Step
    requires ReadShape(read, 30)
  {
    if read.None? then Step(Raised, st)
    else
      var r := read.value;
      Step(Returned(Bool(true)), Put(st, "max_power", Scaled(r[0], Int16(r[20]), 2)))
  }

  /** `read_inverter_controls_data`: four enable flags, each looked up with
      `[]` in turn; the last one is a signed word. */
  function ReadControls(st: HubState, tables: Tables, read: Option<seq<Word>>): Step
    requires ReadShape(read, 24)
  {
    if read.None? then Step(Raised, st)
    else
      var r := read.value;
      var t := tables.controlStatus;
      match Lookup(t, Some(r[2]))
      case None => Step(Raised, st)
      case Some(conn) =>
        var s1 := Put(st, "Conn", Str(conn));
        match Lookup(t, Some(r[7]))
        case None => Step(Raised, s1)
        case Some(wmax) =>
          var s2 := Put(s1, "WMaxLim_Ena", Str(wmax));
          match Lookup(t, Some(r[12]))
          case None => Step(Raised, s2)
          case Some(pf) =>
            var s3 := Put(s2, "OutPFSet_Ena", Str(pf));
            match Lookup(t, Some(Int16(r[20])))
            case None => Step(Raised, s3)
            case Some(varpct) => Step(Returned(Bool(true)), Put(s3, "VArPct_Ena", Str(varpct)))
  }

  /** The MPPT block's values: the four module powers, the PV power as
      the sum of the first two, the storage power as the fourth minus the
      third, and the four lifetime energies. */
  function MpptMeasurements(data: map<string, Value>, r: seq<Word>): map<string, Value>
    requires |r| == 88
  {
    var dcwSf, dcwhSf := Int16(r[2]), Int16(r[3]);
    var p1, p2 := Scaled(r[19], dcwSf, 2), Scaled(r[39], dcwSf, 2);
    var p3, p4 := Scaled(r[59], dcwSf, 2), Scaled(r[79], dcwSf, 2);
    data
      ["mppt1_power" := p1]
      ["mppt2_power" := p2]
      ["mppt3_power" := p3]
      ["mppt4_power" := p4]
      ["pv_power" := Num(p1.x + p2.x)]
      ["storage_power" := Num(p4.x - p3.x)]
      ["mppt1_lfte" := Scaled(Uint32(r[20], r[21]), dcwhSf, 2)]
      ["mppt2_lfte" := Scaled(Uint32(r[40], r[41]), dcwhSf, 2)]
      ["mppt3_lfte" := Scaled(Uint32(r[60], r[61]), dcwhSf, 2)]
      ["mppt4_lfte" := Scaled(Uint32(r[80], r[81]), dcwhSf, 2)]
  }

  /** `read_mppt_data`: a module count other than 4 returns None before
      anything is stored. */
  function ReadMppt(st: HubState, read: Option<seq<Word>>): Step
    requires ReadShape(read, 88)
  {
    if read.None? then Step(Raised, st)
    else if read.value[6] != 4 then Step(Returned(Null), st)
    else Step(Returned(Bool(true)), st.(data := MpptMeasurements(st.data, read.value)))
  }

  /** A failed read raises out of `get_registers` before any decoder gets
      to its own `None` check, so every decoder raises and changes nothing. */
  lemma FailedReadChangesNothing(st: HubState, tables: Tables, prefix: string)
    ensures ReadDeviceInfo(st, prefix, None) == Step(Raised, st)
    ensures ReadInverter(st, tables, None) == Step(Raised, st)
    ensures ReadNameplate(st, None) == Step(Raised, st)
    ensures ReadStatus(st, tables, None) == Step(Raised, st)
    ensures ReadSettings(st, None) == Step(Raised, st)
    ensures ReadControls(st, tables, None) == Step(Raised, st)
    ensures ReadMppt(st, None) == Step(Raised, st)
  {
  }

  /** The measurement decoders touch only the data store: no register write,
      no flag and no ceiling changes, whether they return or raise. */
  lemma DeviceInfoOnlyStoresData(st: HubState, prefix: string, read: Option<seq<Word>>)
    requires ReadShape(read, 65)
    ensures OnlyDataChanged(st, ReadDeviceInfo(st, prefix, read).state)
  {
  }

  lemma InverterOnlyStoresData(st: HubState, tables: Tables, read: Option<seq<Word>>)
    requires ReadShape(read, 50)
    ensures OnlyDataChanged(st, ReadInverter(st, tables, read).state)
  {
  }

  lemma StatusOnlyStoresData(st: HubState, tables: Tables, read: Option<seq<Word>>)
    requires ReadShape(read, 44)
    ensures OnlyDataChanged(st, ReadStatus(st, tables, read).state)
  {
  }

  lemma SettingsOnlyStoresData(st: HubState, read: Option<seq<Word>>)
    requires ReadShape(read, 30)
    ensures OnlyDataChanged(st, ReadSettings(st, read).state)
  {
  }

  lemma ControlsOnlyStoresData(st: HubState, tables: Tables, read: Option<seq<Word>>)
    requires ReadShape(read, 24)
    ensures OnlyDataChanged(st, ReadControls(st, tables, read).state)
  {
  }

  lemma MpptOnlyStoresData(st: HubState, read: Option<seq<Word>>)
    requires ReadShape(read, 88)
    ensures OnlyDataChanged(st, ReadMppt(st, read).state)
  {
  }

  /** Register text is clean. */
  lemma RegisterStringClean(words: seq<Word>)
    ensures Clean(RegisterString(words))
  {
    StripEscapesClean(DecodeString(words));
  }

  /** Two different keys under the same prefix stay different. */
  lemma PrefixedKeysDistinct(prefix: string, a: string, b: string)
    requires a != b
    ensures prefix + a != prefix + b
  {
    assert (prefix + a)[|prefix|..] == a;
    assert (prefix + b)[|prefix|..] == b;
  }

  /** The six device keys under one prefix each keep the value stored last. */
  lemma DeviceKeysStored(m: map<string, Value>, prefix: string, v1: Value, v2: Value, v3: Value, v4: Value, v5: Value, v6: Value)
    ensures var d := m[prefix + "manufacturer" := v1][prefix + "model" := v2][prefix + "options" := v3]
                      [prefix + "sw_version" := v4][prefix + "serial" := v5][prefix + "unit_id" := v6];
      && prefix + "manufacturer" in d && d[prefix + "manufacturer"] == v1
      && prefix + "model" in d && d[prefix + "model"] == v2
      && prefix + "options" in d && d[prefix + "options"] == v3
      && prefix + "sw_version" in d && d[prefix + "sw_version"] == v4
      && prefix + "serial" in d && d[prefix + "serial"] == v5
      && d[prefix + "unit_id"] == v6
  {
    PrefixedKeysDistinct(prefix, "manufacturer", "model");
    PrefixedKeysDistinct(prefix, "manufacturer", "options");
    PrefixedKeysDistinct(prefix, "manufacturer", "sw_version");
    PrefixedKeysDistinct(prefix, "manufacturer", "serial");
    PrefixedKeysDistinct(prefix, "manufacturer", "unit_id");
    PrefixedKeysDistinct(prefix, "model", "options");
    PrefixedKeysDistinct(prefix, "model", "sw_version");
    PrefixedKeysDistinct(prefix, "model", "serial");
    PrefixedKeysDistinct(prefix, "model", "unit_id");
    PrefixedKeysDistinct(prefix, "options", "sw_version");
    PrefixedKeysDistinct(prefix, "options", "serial");
    PrefixedKeysDistinct(prefix, "options", "unit_id");
    PrefixedKeysDistinct(prefix, "sw_version", "serial");
    PrefixedKeysDistinct(prefix, "sw_version", "unit_id");
    PrefixedKeysDistinct(prefix, "serial", "unit_id");
  }

  /** Where the device decoder stores each register range. */
  lemma DeviceInfoKeys(st: HubState, prefix: string, r: seq<Word>)
    requires |r| == 65
    ensures var d := ReadDeviceInfo(st, prefix, Some(r)).state.data;
      && prefix + "manufacturer" in d && d[prefix + "manufacturer"] == Str(RegisterString(r[0..16]))
      && prefix + "model" in d && d[prefix + "model"] == Str(RegisterString(r[16..32]))
      && prefix + "options" in d && d[prefix + "options"] == Str(RegisterString(r[32..40]))
      && prefix + "sw_version" in d && d[prefix + "sw_version"] == Str(RegisterString(r[40..48]))
      && prefix + "serial" in d && d[prefix + "serial"] == Str(RegisterString(r[48..64]))
      && d[prefix + "unit_id"] == Num(r[64] as real)
  {
    DeviceKeysStored(st.data, prefix, Str(RegisterString(r[0..16])), Str(RegisterString(r[16..32])),
      Str(RegisterString(r[32..40])), Str(RegisterString(r[40..48])), Str(RegisterString(r[48..64])), Num(r[64] as real));
  }

  /** The device strings are clean and the unit id is the last register. */
  lemma DeviceInfoStringsClean(st: HubState, prefix: string, r: seq<Word>)
    requires |r| == 65
    ensures var d := ReadDeviceInfo(st, prefix, Some(r)).state.data;
      && prefix + "manufacturer" in d && d[prefix + "manufacturer"].Str? && Clean(d[prefix + "manufacturer"].s)
      && prefix + "model" in d && d[prefix + "model"].Str? && Clean(d[prefix + "model"].s)
      && prefix + "options" in d && d[prefix + "options"].Str? && Clean(d[prefix + "options"].s)
      && prefix + "sw_version" in d && d[prefix + "sw_version"].Str? && Clean(d[prefix + "sw_version"].s)
      && prefix + "serial" in d && d[prefix + "serial"].Str? && Clean(d[prefix + "serial"].s)
      && d[prefix + "unit_id"] == Num(r[64] as real)
  {
    DeviceInfoKeys(st, prefix, r);
    RegisterStringClean(r[0..16]);
    RegisterStringClean(r[16..32]);
    RegisterStringClean(r[32..40]);
    RegisterStringClean(r[40..48]);
    RegisterStringClean(r[48..64]);
  }

  /** The settings decoder stores only the maximum power: word 0 scaled by
      the signed word 20, to within half a hundredth. */
  lemma SettingsMaxPower(st: HubState, r: seq<Word>)
    requires |r| == 30
    ensures var s := ReadSettings(st, Some(r));
      && s.outcome == Returned(Bool(true))
      && OnlyDataChanged(st, s.state)
      && OthersUnchanged(st.data, s.state.data, {"max_power"})
      && "max_power" in s.state.data && s.state.data["max_power"].Num?
      && -0.005 <= s.state.data["max_power"].x - r[0] as real * Pow10(Int16(r[20])) <= 0.005
  {
    ScaledIsRounded(r[0], Int16(r[20]), 2);
    assert Pow10(2) == 100.0;
  }

  /** The controls decoder raises exactly when one of the four flag codes
      (words 2, 7, 12 and the signed word 20) is missing from the control
      status table; otherwise it stores each code's label under its key and
      touches nothing else. */
  lemma ControlsFlags(st: HubState, tables: Tables, r: seq<Word>)
    requires |r| == 24
    ensures var t := tables.controlStatus;
      var s := ReadControls(st, tables, Some(r));
      var known := r[2] in t && r[7] in t && r[12] in t && Int16(r[20]) in t;
      && OnlyDataChanged(st, s.state)
      && (s.outcome.Raised? <==> !known)
      && (known ==>
            && s.outcome == Returned(Bool(true))
            && s.state.data["Conn"] == Str(t[r[2]])
            && s.state.data["WMaxLim_Ena"] == Str(t[r[7]])
            && s.state.data["OutPFSet_Ena"] == Str(t[r[12]])
            && s.state.data["VArPct_Ena"] == Str(t[Int16(r[20])])
            && OthersUnchanged(st.data, s.state.data, {"Conn", "WMaxLim_Ena", "OutPFSet_Ena", "VArPct_Ena"}))
  {
  }

  /** With a module count other than 4 the MPPT decoder returns None and
      stores nothing. */
  lemma MpptNeedsFourModules(st: HubState, r: seq<Word>)
    requires |r| == 88 && r[6] != 4
    ensures ReadMppt(st, Some(r)) == Step(Returned(Null), st)
  {
  }

  /** With four modules the PV power is the sum of modules 1 and 2 and the
      storage power is module 4 less module 3, as stored. */
  lemma MpptPowerSums(st: HubState, r: seq<Word>)
    requires |r| == 88 && r[6] == 4
    ensures var d := ReadMppt(st, Some(r)).state.data;
      && (forall k :: k in {"mppt1_power", "mppt2_power", "mppt3_power", "mppt4_power", "pv_power", "storage_power"}
            ==> k in d && d[k].Num?)
      && d["pv_power"].x == d["mppt1_power"].x + d["mppt2_power"].x
      && d["storage_power"].x == d["mppt4_power"].x - d["mppt3_power"].x
  {
  }

  /** The nameplate turns storage on for DER type 82 and never turns it
      off; the ceilings become the block's rate words. */
  lemma NameplateStorageFlag(st: HubState, r: seq<Word>)
    requires |r| == 120
    ensures var s := ReadNameplate(st, Some(r)).state;
      && s.storageConfigured == (st.storageConfigured || r[0] == 82)
      && s.maxChargeRateW == r[21] && s.maxDischargeRateW == r[23]
      && s.writes == st.writes && s.extendedMode == st.extendedMode
  {
  }

  /** An unknown vendor status code raises after the ten measurements are
      stored and before the status itself. */
  lemma InverterUnknownStatus(st: HubState, tables: Tables, r: seq<Word>)
    requires |r| == 50 && r[37] !in tables.froniusInverterStatus
    ensures ReadInverter(st, tables, Some(r)) == Step(Raised, st.(data := InverterMeasurements(st.data, r)))
  {
  }

  /** A stored entry that is a register value scaled to two decimals lies
      within half a hundredth of its exact value. */
  lemma ScaledEntry(d: map<string, Value>, key: string, value: int, sf: int)
    requires key in d && d[key] == Scaled(value, sf, 2)
    ensures d[key].Num? && -0.005 <= d[key].x - Exact(value, sf) <= 0.005
  {
    ScaledIsRounded(value, sf, 2);
    assert Pow10(2) == 100.0;
  }

  /** The inverter block's AC power is stored whatever the status code:
      within half a hundredth of the signed word 12 scaled by the signed
      word 13. */
  lemma InverterPower(st: HubState, tables: Tables, r: seq<Word>)
    requires |r| == 50
    ensures var d := ReadInverter(st, tables, Some(r)).state.data;
      && "acpower" in d && d["acpower"].Num?
      && -0.005 <= d["acpower"].x - Exact(Int16(r[12]), Int16(r[13])) <= 0.005
  {
    var m := InverterMeasurements(st.data, r);
    assert m["acpower"] == Scaled(Int16(r[12]), Int16(r[13]), 2);
    ScaledEntry(ReadInverter(st, tables, Some(r)).state.data, "acpower", Int16(r[12]), Int16(r[13]));
  }

  /** The inverter block's line frequency is stored whatever the status
      code: within half a hundredth of the signed word 14 scaled by the
      signed word 15. */
  lemma InverterFrequency(st: HubState, tables: Tables, r: seq<Word>)
    requires |r| == 50
    ensures var d := ReadInverter(st, tables, Some(r)).state.data;
      && "line_frequency" in d && d["line_frequency"].Num?
      && -0.005 <= d["line_frequency"].x - Exact(Int16(r[14]), Int16(r[15])) <= 0.005
  {
    var m := InverterMeasurements(st.data, r);
    assert m["line_frequency"] == Scaled(Int16(r[14]), Int16(r[15]), 2);
    ScaledEntry(ReadInverter(st, tables, Some(r)).state.data, "line_frequency", Int16(r[14]), Int16(r[15]));
  }

  /** The inverter decoder raises exactly when the vendor status code (word
      37) is missing from its table. Otherwise it stores the status label,
      the code itself and the event text of the 32-bit word 44..45: "None"
      when none of its bits is set, the truncated join of the set bits'
      labels otherwise. Only the ten measurements and these three keys
      change. */
  lemma InverterStatusAndEvents(st: HubState, tables: Tables, r: seq<Word>)
    requires |r| == 50
    ensures var t := tables.froniusInverterStatus;
      var s := ReadInverter(st, tables, Some(r));
      var d := s.state.data;
      var word := Uint32(r[44], r[45]);
      var measured := {"PPVphAB", "PPVphBC", "PPVphCA", "PhVphA", "PhVphB", "PhVphC",
                       "tempcab", "acpower", "line_frequency", "acenergy"};
      && OnlyDataChanged(st, s.state)
      && (s.outcome.Raised? <==> r[37] !in t)
      && (r[37] !in t ==> OthersUnchanged(st.data, d, measured))
      && (r[37] in t ==>
            && s.outcome == Returned(Bool(true))
            && "statusvendor" in d && d["statusvendor"] == Str(t[r[37]])
            && "statusvendor_id" in d && d["statusvendor_id"] == Num(r[37] as real)
            && "events2" in d
            && ((forall k :: 0 <= k < 32 ==> !BitSet(word, k)) ==> d["events2"] == Str("None"))
            && ((exists k :: 0 <= k < 32 && BitSet(word, k)) ==>
                  d["events2"] == Str(Truncate(Join(SetBitLabels(word, tables.inverterEvents, 32), ","), 255)))
            && OthersUnchanged(st.data, d, measured + {"statusvendor", "statusvendor_id", "events2"}))
  {
    BitmaskDefault(Uint32(r[44], r[45]), tables.inverterEvents, "None", 255, 32);
  }

  /** The status decoder raises exactly when the PV or storage connection
      code (words 0 and 1) is missing from the condensed connection table or
      the ECP code (word 2) from the ECP table; a raise keeps every key but
      the two connection labels it may already have stored. Otherwise the
      three labels are stored and only they and the active-controls text
      change. */
  lemma StatusConnections(st: HubState, tables: Tables, r: seq<Word>)
    requires |r| == 44
    ensures var cs, ecp := tables.connectionStatusCondensed, tables.ecpConnectionStatus;
      var s := ReadStatus(st, tables, Some(r));
      var d := s.state.data;
      var known := r[0] in cs && r[1] in cs && r[2] in ecp;
      && OnlyDataChanged(st, s.state)
      && (s.outcome.Raised? <==> !known)
      && (!known ==> OthersUnchanged(st.data, d, {"pv_connection", "storage_connection"}))
      && (known ==>
            && s.outcome == Returned(Bool(true))
            && "pv_connection" in d && d["pv_connection"] == Str(cs[r[0]])
            && "storage_connection" in d && d["storage_connection"] == Str(cs[r[1]])
            && "ecp_connection" in d && d["ecp_connection"] == Str(ecp[r[2]])
            && OthersUnchanged(st.data, d, {"pv_connection", "storage_connection", "ecp_connection", "inverter_controls"}))
  {
  }

  /** The active-controls text is the default "Normal" exactly when none of
      the low 16 bits of the control word is set. */
  lemma StatusControlsNormal(st: HubState, tables: Tables, r: seq<Word>)
    requires |r| == 44
    requires r[0] in tables.connectionStatusCondensed && r[1] in tables.connectionStatusCondensed
    requires r[2] in tables.ecpConnectionStatus
    ensures var step := ReadStatus(st, tables, Some(r));
      var word := Uint32(r[33], r[34]);
      && step.outcome == Returned(Bool(true))
      && ((forall k :: 0 <= k < 16 ==> !BitSet(word, k)) ==> step.state.data["inverter_controls"] == Str("Normal"))
      && ((exists k :: 0 <= k < 16 && BitSet(word, k)) ==>
            step.state.data["inverter_controls"]
              == Str(Truncate(Join(SetBitLabels(word, tables.inverterControls, 16), ","), 255)))
  {
    BitmaskDefault(Uint32(r[33], r[34]), tables.inverterControls, "Normal", 255, 16);
  }
}
