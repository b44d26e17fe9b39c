/**
  One polling cycle of `_refresh_modbus_data`: the decoders in their fixed
  order, each behind its own exception handler, and the cycle's result,
  which is whatever the last decoder that ran left in `update_result`.
 */
module Refresh {
  import opened Values
  import opened Codec
  import opened HubModel
  import opened Decoders
  import opened StorageControl
  import opened Meter

  /** The register reads of one cycle, in the order they are issued; one
      read per configured meter. */
  datatype CycleReads = CycleReads(
    inverter: Option<seq<Word>>,
    status: Option<seq<Word>>,
    settings: Option<seq<Word>>,
    controls: Option<seq<Word>>,
    meters: seq<Option<seq<Word>>>,
    mppt: Option<seq<Word>>,
    storage: Option<seq<Word>>)

  predicate MeterReadsShaped(meters: seq<Option<seq<Word>>>)
  {
    forall i :: 0 <= i < |meters| ==> ReadShape(meters[i], 103)
  }

  predicate WellShaped(cycle: CycleReads)
  {
    && ReadShape(cycle.inverter, 50) && ReadShape(cycle.status, 44)
    && ReadShape(cycle.settings, 30) && ReadShape(cycle.controls, 24)
    && MeterReadsShaped(cycle.meters)
    && ReadShape(cycle.mppt, 88) && ReadShape(cycle.storage, 24)
  }

  /** The value `update_result` takes from a decoder call: what it
      returned, or False when its handler caught an exception. */
  function ResultOf(o: Outcome): (v: Value)
    ensures o.Raised? ==> v == Bool(false)
    ensures o.Returned? ==> v == o.value
  {
    if o.Raised? then Bool(false) else o.value
  }

  /** The cycle's `update_result` and the hub state so far. */
  datatype Progress = Progress(result: Value, state: HubState)

  /** The meter loop: every meter is decoded under the prefix `m1_`, and a
      meter whose decoder raises leaves `update_result` as it was. */
  function RunMeters(p: Progress, tables: Tables, meters: seq<Option<seq<Word>>>): Progress
    requires MeterReadsShaped(meters)
    decreases |meters|
  {
    if meters == [] then p
    else
      var step := ReadMeter(p.state, tables, "m1_", meters[0]);
      var result := if step.outcome.Raised? then p.result else step.outcome.value;
      RunMeters(Progress(result, step.state), tables, meters[1..])
  }

  /** The four inverter decoders, which always run. */
  function InverterPhase(st: HubState, tables: Tables, cycle: CycleReads): Progress
    requires WellShaped(cycle)
  {
    var a := ReadInverter(st, tables, cycle.inverter);
    var b := ReadStatus(a.state, tables, cycle.status);
    var c := ReadSettings(b.state, cycle.settings);
    var d := ReadControls(c.state, tables, cycle.controls);
    Progress(ResultOf(d.outcome), d.state)
  }

  /** The meters when a meter is configured, then the MPPT block when it is
      configured. */
  function OptionalPhase(p: Progress, tables: Tables, cycle: CycleReads): Progress
    requires WellShaped(cycle)
  {
    var p1 := if p.state.meterConfigured then RunMeters(p, tables, cycle.meters) else p;
    if p1.state.mpptConfigured then
      var m := ReadMppt(p1.state, cycle.mppt);
      Progress(ResultOf(m.outcome), m.state)
    else p1
  }

  /** `_refresh_modbus_data`: False without subscribers or without a
      connection; otherwise the decoders in order, the storage block last
      when storage is configured. */
  function RefreshCycle(st: HubState, tables: Tables, subscribed: bool, connected: bool, cycle: CycleReads): Progress
    requires WellShaped(cycle)
  {
    if !subscribed || !connected then Progress(Bool(false), st)
    else
      var p := OptionalPhase(InverterPhase(st, tables, cycle), tables, cycle);
      if p.state.storageConfigured then
        var s := ReadStorage(p.state, tables, cycle.storage);
        Progress(ResultOf(s.outcome), s.state)
      else p
  }

  /** The decoders that always run leave True exactly when the controls
      block was read and its four flag codes are known, whatever the
      inverter, status and settings decoders returned or raised: each
      handler overwrites the result, and a caught exception makes it False. */
  lemma InverterPhaseResult(st: HubState, tables: Tables, cycle: CycleReads)
    requires WellShaped(cycle)
    ensures var t := tables.controlStatus;
      InverterPhase(st, tables, cycle).result
        == Bool(cycle.controls.Some?
                && cycle.controls.value[2] in t && cycle.controls.value[7] in t
                && cycle.controls.value[12] in t && Int16(cycle.controls.value[20]) in t)
  {
    if cycle.controls.Some? {
      var a := ReadInverter(st, tables, cycle.inverter);
      var b := ReadStatus(a.state, tables, cycle.status);
      var c := ReadSettings(b.state, cycle.settings);
      ControlsFlags(c.state, tables, cycle.controls.value);
    }
  }

  /** Without subscribers or without a link the cycle reads nothing and
      returns False. */
  lemma IdleCycle(st: HubState, tables: Tables, subscribed: bool, connected: bool, cycle: CycleReads)
    requires WellShaped(cycle) && (!subscribed || !connected)
    ensures RefreshCycle(st, tables, subscribed, connected, cycle) == Progress(Bool(false), st)
  {
  }

  /** The meter decoder never changes a flag, a ceiling, the cached mode or
      the writes. */
  lemma MeterOnlyStoresData(st: HubState, tables: Tables, prefix: string, read: Option<seq<Word>>)
    requires ReadShape(read, 103)
    ensures OnlyDataChanged(st, ReadMeter(st, tables, prefix, read).state)
  {
  }

  /** A meter decode keeps the inverter frequency absent when it was. */
  lemma MeterKeepsFrequencyAbsent(st: HubState, tables: Tables, read: Option<seq<Word>>)
    requires ReadShape(read, 103) && "line_frequency" !in st.data
    ensures "line_frequency" !in ReadMeter(st, tables, "m1_", read).state.data
  {
    if read.Some? {
      var d1 := MeterMeasurements(st.data, "m1_", read.value);
      assert "line_frequency" !in d1;
    }
  }

  /** With the inverter frequency missing, every meter raises, whether its
      read fails or it is decoded, so the meter loop hands on the result it
      was given. */
  lemma {:induction false} MeterExceptionKeepsResult(p: Progress, tables: Tables, meters: seq<Option<seq<Word>>>)
    requires MeterReadsShaped(meters)
    requires "line_frequency" !in p.state.data
    ensures RunMeters(p, tables, meters).result == p.result
    decreases |meters|
  {
    if meters != [] {
      var step := ReadMeter(p.state, tables, "m1_", meters[0]);
      if meters[0].Some? {
        PrimaryMeterNeedsInverterFrequency(p.state, tables, meters[0].value);
      } else {
        MeterFailedRead(p.state, tables, "m1_");
      }
      MeterKeepsFrequencyAbsent(p.state, tables, meters[0]);
      assert MeterReadsShaped(meters[1..]) by {
        forall i | 0 <= i < |meters[1..]| ensures ReadShape(meters[1..][i], 103) {
          assert meters[1..][i] == meters[i + 1];
        }
      }
      assert RunMeters(p, tables, meters) == RunMeters(Progress(p.result, step.state), tables, meters[1..]);
      MeterExceptionKeepsResult(Progress(p.result, step.state), tables, meters[1..]);
    }
  }

  /** Meters whose reads all fail leave the result and the state as they
      were. */
  lemma {:induction false} FailedMeterReadsKeepProgress(p: Progress, tables: Tables, meters: seq<Option<seq<Word>>>)
    requires MeterReadsShaped(meters)
    requires forall i :: 0 <= i < |meters| ==> meters[i].None?
    ensures RunMeters(p, tables, meters) == p
    decreases |meters|
  {
    if meters != [] {
      MeterFailedRead(p.state, tables, "m1_");
      assert MeterReadsShaped(meters[1..]) by {
        forall i | 0 <= i < |meters[1..]| ensures ReadShape(meters[1..][i], 103) {
          assert meters[1..][i] == meters[i + 1];
        }
      }
      assert forall i :: 0 <= i < |meters[1..]| ==> meters[1..][i].None? by {
        forall i | 0 <= i < |meters[1..]| ensures meters[1..][i].None? {
          assert meters[1..][i] == meters[i + 1];
        }
      }
      FailedMeterReadsKeepProgress(p, tables, meters[1..]);
    }
  }

  /** Without MPPT and storage, meters whose reads fail leave the cycle's
      result to the controls decoder, so a successful controls read still
      notifies the subscribers. */
  lemma MeterFailuresKeepCycleResult(st: HubState, tables: Tables, cycle: CycleReads)
    requires WellShaped(cycle) && !st.mpptConfigured && !st.storageConfigured
    requires forall i :: 0 <= i < |cycle.meters| ==> cycle.meters[i].None?
    ensures RefreshCycle(st, tables, true, true, cycle) == InverterPhase(st, tables, cycle)
  {
    PhasesOnlyStoreData(st, tables, cycle);
    FailedMeterReadsKeepProgress(InverterPhase(st, tables, cycle), tables, cycle.meters);
  }

  /** The meter loop changes nothing but the data store. */
  lemma {:induction false} MetersOnlyStoreData(p: Progress, tables: Tables, meters: seq<Option<seq<Word>>>)
    requires MeterReadsShaped(meters)
    ensures OnlyDataChanged(p.state, RunMeters(p, tables, meters).state)
    decreases |meters|
  {
    if meters != [] {
      var step := ReadMeter(p.state, tables, "m1_", meters[0]);
      MeterOnlyStoresData(p.state, tables, "m1_", meters[0]);
      assert MeterReadsShaped(meters[1..]) by {
        forall i | 0 <= i < |meters[1..]| ensures ReadShape(meters[1..][i], 103) {
          assert meters[1..][i] == meters[i + 1];
        }
      }
      var result := if step.outcome.Raised? then p.result else step.outcome.value;
      MetersOnlyStoreData(Progress(result, step.state), tables, meters[1..]);
    }
  }

  /** Everything before the storage block changes only the data store. */
  lemma PhasesOnlyStoreData(st: HubState, tables: Tables, cycle: CycleReads)
    requires WellShaped(cycle)
    ensures OnlyDataChanged(st, InverterPhase(st, tables, cycle).state)
    ensures var p := InverterPhase(st, tables, cycle);
      OnlyDataChanged(p.state, OptionalPhase(p, tables, cycle).state)
  {
    var a := ReadInverter(st, tables, cycle.inverter);
    InverterOnlyStoresData(st, tables, cycle.inverter);
    var b := ReadStatus(a.state, tables, cycle.status);
    StatusOnlyStoresData(a.state, tables, cycle.status);
    var c := ReadSettings(b.state, cycle.settings);
    SettingsOnlyStoresData(b.state, cycle.settings);
    ControlsOnlyStoresData(c.state, tables, cycle.controls);
    var p := InverterPhase(st, tables, cycle);
    MetersOnlyStoreData(p, tables, cycle.meters);
    var p1 := if p.state.meterConfigured then RunMeters(p, tables, cycle.meters) else p;
    MpptOnlyStoresData(p1.state, cycle.mppt);
  }

  /** With storage configured the cycle's result is the storage decoder's:
      False when its read fails or it raises, True otherwise, whatever the
      earlier decoders returned. */
  lemma StorageDecidesResult(st: HubState, tables: Tables, cycle: CycleReads)
    requires WellShaped(cycle) && st.storageConfigured
    ensures var p := OptionalPhase(InverterPhase(st, tables, cycle), tables, cycle);
      var s := ReadStorage(p.state, tables, cycle.storage);
      RefreshCycle(st, tables, true, true, cycle).result == ResultOf(s.outcome)
    ensures cycle.storage.None? ==> RefreshCycle(st, tables, true, true, cycle).result == Bool(false)
  {
    PhasesOnlyStoreData(st, tables, cycle);
    var p := OptionalPhase(InverterPhase(st, tables, cycle), tables, cycle);
    StorageFailedRead(p.state, tables);
  }

  /** Without storage, a configured MPPT block with a module count other
      than 4 makes the whole cycle return None, so nobody is notified. */
  lemma MpptCountSilencesCycle(st: HubState, tables: Tables, cycle: CycleReads)
    requires WellShaped(cycle) && !st.storageConfigured && st.mpptConfigured
    requires cycle.mppt.Some? && cycle.mppt.value[6] != 4
    ensures RefreshCycle(st, tables, true, true, cycle).result == Null
    ensures !Truthy(RefreshCycle(st, tables, true, true, cycle).result)
  {
    PhasesOnlyStoreData(st, tables, cycle);
    var p := InverterPhase(st, tables, cycle);
    var p1 := if p.state.meterConfigured then RunMeters(p, tables, cycle.meters) else p;
    MpptNeedsFourModules(p1.state, cycle.mppt.value);
  }
}
