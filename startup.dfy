/**
  The hub's start-up probe, `init_data`: the inverter's common block must
  be readable, a readable four-module MPPT block turns MPPT on, up to five
  meters turn the meter path on and have their common blocks read under
  `m1_` … `m5_`, and the nameplate decides whether storage is present.
 */
module Startup {
  import opened Values
  import opened Codec
  import opened HubModel
  import opened Decoders

  /** The register reads of the probe, in the order they are issued. */
  datatype StartupReads = StartupReads(
    inverterInfo: Option<seq<Word>>,
    mppt: Option<seq<Word>>,
    meterInfos: seq<Option<seq<Word>>>,
    nameplate: Option<seq<Word>>)

  predicate MeterInfosShaped(infos: seq<Option<seq<Word>>>)
  {
    forall i :: 0 <= i < |infos| ==> ReadShape(infos[i], 65)
  }

  predicate StartupShaped(probe: StartupReads)
  {
    && ReadShape(probe.inverterInfo, 65) && ReadShape(probe.mppt, 88)
    && MeterInfosShaped(probe.meterInfos) && ReadShape(probe.nameplate, 120)
  }

  /** The key prefix of the n-th meter, `m1_` to `m5_`. */
  function MeterPrefix(n: nat): (p: string)
    requires 1 <= n <= 5
    ensures |p| == 3 && p[0] == 'm' && p[2] == '_' && p[1] as int - '0' as int == n
  {
    ['m', ('0' as int + n) as char, '_']
  }

  /** The common blocks of the meters, the first under prefix number
      `first`; a meter whose block cannot be read stores nothing. */
  function MeterInfos(st: HubState, infos: seq<Option<seq<Word>>>, first: nat): HubState
    requires MeterInfosShaped(infos) && 1 <= first && first + |infos| <= 6
    decreases |infos|
  {
    if infos == [] then st
    else MeterInfos(ReadDeviceInfo(st, MeterPrefix(first), infos[0]).state, infos[1..], first + 1)
  }

  /** `init_data`. An inverter common block that raises or returns False
      makes the probe raise; the MPPT and meter blocks are read behind
      handlers; more than five meters end the probe early, returning None,
      before the meter blocks and the nameplate are read; the nameplate is
      read outside any handler, so its exception leaves the probe. */
  function InitData(st: HubState, probe: StartupReads): Step
    requires StartupShaped(probe)
  {
    var info := ReadDeviceInfo(st, "i_", probe.inverterInfo);
    if info.outcome.Raised? || info.outcome == Returned(Bool(false)) then Step(Raised, info.state)
    else
      var mppt := ReadMppt(info.state, probe.mppt);
      var s1 := if mppt.outcome.Returned? && Truthy(mppt.outcome.value)
                then mppt.state.(mpptConfigured := true) else mppt.state;
      if |probe.meterInfos| > 5 then Step(Returned(Null), s1)
      else
        var s2 := if |probe.meterInfos| > 0 then s1.(meterConfigured := true) else s1;
        var s3 := MeterInfos(s2, probe.meterInfos, 1);
        var np := ReadNameplate(s3, probe.nameplate);
        Step(if np.outcome.Raised? then Raised else Returned(Bool(true)), np.state)
  }

  /** Distinct meter numbers give distinct prefixes, so no meter overwrites
      another's keys. */
  lemma MeterPrefixesDistinct(i: nat, j: nat)
    requires 1 <= i <= 5 && 1 <= j <= 5 && i != j
    ensures MeterPrefix(i) != MeterPrefix(j)
  {
    assert MeterPrefix(i)[1] != MeterPrefix(j)[1];
  }

  /** The meter common blocks touch only the data store. */
  lemma {:induction false} MeterInfosOnlyStoreData(st: HubState, infos: seq<Option<seq<Word>>>, first: nat)
    requires MeterInfosShaped(infos) && 1 <= first && first + |infos| <= 6
    ensures OnlyDataChanged(st, MeterInfos(st, infos, first))
    decreases |infos|
  {
    if infos != [] {
      DeviceInfoOnlyStoresData(st, MeterPrefix(first), infos[0]);
      assert MeterInfosShaped(infos[1..]) by {
        forall i | 0 <= i < |infos[1..]| ensures ReadShape(infos[1..][i], 65) {
          assert infos[1..][i] == infos[i + 1];
        }
      }
      MeterInfosOnlyStoreData(ReadDeviceInfo(st, MeterPrefix(first), infos[0]).state, infos[1..], first + 1);
    }
  }

  /** Without the inverter's common block the probe raises and only the
      failed read's (empty) effect remains. */
  lemma InitNeedsInverterInfo(st: HubState, probe: StartupReads)
    requires StartupShaped(probe) && probe.inverterInfo.None?
    ensures InitData(st, probe) == Step(Raised, st)
  {
  }

  /** A probe past the inverter block turns MPPT on exactly for a readable
      four-module block, turns the meter path on exactly when some meter is
      configured, and turns storage on for DER type 82 in the nameplate. It
      returns True when the nameplate is read and raises when it is not. It
      writes no register and keeps the cached mode and the rate ceilings
      unless the nameplate supplies them. */
  lemma InitDetectsCapabilities(st: HubState, probe: StartupReads)
    requires StartupShaped(probe) && probe.inverterInfo.Some? && |probe.meterInfos| <= 5
    ensures var s := InitData(st, probe);
      && s.outcome == (if probe.nameplate.Some? then Returned(Bool(true)) else Raised)
      && s.state.mpptConfigured == (st.mpptConfigured || (probe.mppt.Some? && probe.mppt.value[6] == 4))
      && s.state.meterConfigured == (st.meterConfigured || |probe.meterInfos| > 0)
      && s.state.storageConfigured == (st.storageConfigured || (probe.nameplate.Some? && probe.nameplate.value[0] == 82))
      && s.state.writes == st.writes && s.state.extendedMode == st.extendedMode
      && (probe.nameplate.None? ==> s.state.maxChargeRateW == st.maxChargeRateW)
  {
    var info := ReadDeviceInfo(st, "i_", probe.inverterInfo);
    DeviceInfoOnlyStoresData(st, "i_", probe.inverterInfo);
    var mppt := ReadMppt(info.state, probe.mppt);
    MpptOnlyStoresData(info.state, probe.mppt);
    if probe.mppt.Some? && probe.mppt.value[6] != 4 {
      MpptNeedsFourModules(info.state, probe.mppt.value);
    }
    var s1 := if mppt.outcome.Returned? && Truthy(mppt.outcome.value)
              then mppt.state.(mpptConfigured := true) else mppt.state;
    var s2 := if |probe.meterInfos| > 0 then s1.(meterConfigured := true) else s1;
    MeterInfosOnlyStoreData(s2, probe.meterInfos, 1);
    var s3 := MeterInfos(s2, probe.meterInfos, 1);
    if probe.nameplate.Some? {
      NameplateStorageFlag(s3, probe.nameplate.value);
    }
  }

  /** With more than five meters the probe stops before the meters and the
      nameplate: it returns None and storage stays off if it was off. */
  lemma TooManyMetersSkipsNameplate(st: HubState, probe: StartupReads)
    requires StartupShaped(probe) && probe.inverterInfo.Some? && |probe.meterInfos| > 5
    ensures var s := InitData(st, probe);
      && s.outcome == Returned(Null)
      && s.state.storageConfigured == st.storageConfigured
      && s.state.meterConfigured == st.meterConfigured
  {
    DeviceInfoOnlyStoresData(st, "i_", probe.inverterInfo);
    MpptOnlyStoresData(ReadDeviceInfo(st, "i_", probe.inverterInfo).state, probe.mppt);
  }
}
