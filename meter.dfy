/**
  The meter block decoder (SunSpec 203): voltages, energies, frequency and
  power under the meter's prefix and, for the primary meter `m1_`, the
  house load and the grid connection status derived from the inverter's and
  the meter's frequencies.
 */
module Meter {
  import opened Values
  import opened Codec
  import opened HubModel

  /** The key of the grid status table the frequencies select, or None when
      no rule applies and the status stays the empty text. The inverter
      frequency decides first; the meter frequency only when the inverter
      frequency is below 1 Hz. Boundary values (48, 52, 54 Hz) match no
      rule. */
  function GridStatusCode(inverterFrequency: Value, meterFrequency: Value): (code: Option<int>)
    ensures code == Some(3) <==> inverterFrequency.Num? && 48.0 < inverterFrequency.x < 52.0
    ensures code == Some(1) <==> inverterFrequency.Num? && 52.0 < inverterFrequency.x < 54.0
    ensures code == Some(2) <==> (inverterFrequency.Num? && inverterFrequency.x < 1.0
                                  && meterFrequency.Num? && meterFrequency.x > 48.0)
    ensures code == Some(0) <==> (inverterFrequency.Num? && inverterFrequency.x < 1.0
                                  && meterFrequency.Num? && meterFrequency.x < 1.0)
    ensures code.Some? ==> code.value in {0, 1, 2, 3}
  {
    if !inverterFrequency.Num? then None
    else
      var f := inverterFrequency.x;
      if 48.0 < f < 52.0 then Some(3)
      else if 52.0 < f < 54.0 then Some(1)
      else if f < 1.0 && meterFrequency.Num? then
        if meterFrequency.x > 48.0 then Some(2)
        else if meterFrequency.x < 1.0 then Some(0)
        else None
      else None
  }

  /** The stored grid status: the empty text when no rule applies, else the
      table's label, or None for a key the table lacks. */
  function GridStatusValue(tables: Tables, code: Option<int>): Value
  {
    if code.None? then Str("") else LabelOrNone(tables.gridStatus, code.value)
  }

  /** The eight measurements stored under the meter's prefix. */
  function MeterMeasurements(data: map<string, Value>, prefix: string, r: seq<Word>): map<string, Value>
    requires |r| == 103
  {
    var vsf := Int16(r[13]);
    data
      [prefix + "PhVphA" := Scaled(Int16(r[6]), vsf, 1)]
      [prefix + "PhVphB" := Scaled(Int16(r[7]), vsf, 1)]
      [prefix + "PhVphC" := Scaled(Int16(r[8]), vsf, 1)]
      [prefix + "PPV" := Scaled(Int16(r[9]), vsf, 1)]
      [prefix + "exported" := Scaled(Uint32(r[36], r[37]), Int16(r[52]), 2)]
      [prefix + "imported" := Scaled(Uint32(r[44], r[45]), Int16(r[52]), 2)]
      [prefix + "line_frequency" := Scaled(Int16(r[14]), Int16(r[15]), 2)]
      [prefix + "power" := Scaled(Int16(r[16]), Int16(r[20]), 2)]
  }

  /** `read_meter_data`. For the primary meter the load is the meter power
      plus the inverter's AC power when that is a number, and the grid
      status follows from the frequencies; the inverter frequency is read
      with `[]`, so a missing one raises. */
  function ReadMeter(st: HubState, tables: Tables, prefix: string, read: Option<seq<Word>>): Step
    requires ReadShape(read, 103)
  {
    if read.None? then Step(Raised, st)
    else
      var r := read.value;
      var power := Scaled(Int16(r[16]), Int16(r[20]), 2);
      var meterFrequency := Scaled(Int16(r[14]), Int16(r[15]), 2);
      var s1 := st.(data := MeterMeasurements(st.data, prefix, r));
      if prefix != "m1_" then Step(Returned(Bool(true)), s1)
      else
        var inverterPower := Get(s1.data, "acpower");
        var s2 := if inverterPower.Num? then Put(s1, "load", Num(Round(power.x + inverterPower.x, 2))) else s1;
        if "line_frequency" !in s2.data then Step(Raised, s2)
        else
          var code := GridStatusCode(s2.data["line_frequency"], meterFrequency);
          Step(Returned(Bool(true)), Put(s2, "grid_status", GridStatusValue(tables, code)))
  }

  /** A failed read raises and changes nothing. */
  lemma MeterFailedRead(st: HubState, tables: Tables, prefix: string)
    ensures ReadMeter(st, tables, prefix, None) == Step(Raised, st)
  {
  }

  /** A secondary meter stores only its own prefixed keys. */
  lemma SecondaryMeterOwnKeys(st: HubState, tables: Tables, prefix: string, r: seq<Word>)
    requires |r| == 103 && prefix != "m1_"
    ensures var s := ReadMeter(st, tables, prefix, Some(r));
      && s.outcome == Returned(Bool(true))
      && OnlyDataChanged(st, s.state)
      && OthersUnchanged(st.data, s.state.data,
           {prefix + "PhVphA", prefix + "PhVphB", prefix + "PhVphC", prefix + "PPV",
            prefix + "exported", prefix + "imported", prefix + "line_frequency", prefix + "power"})
  {
  }

  /** For the primary meter with a numeric inverter power and a stored
      inverter frequency: the load is within half a hundredth of the sum of
      the two powers, and the grid status is the one the frequencies
      select. */
  lemma PrimaryMeterLoadAndStatus(st: HubState, tables: Tables, r: seq<Word>)
    requires |r| == 103
    requires "acpower" in st.data && st.data["acpower"].Num?
    requires "line_frequency" in st.data
    ensures var s := ReadMeter(st, tables, "m1_", Some(r));
      var power := Scaled(Int16(r[16]), Int16(r[20]), 2).x;
      && s.outcome == Returned(Bool(true))
      && OnlyDataChanged(st, s.state)
      && s.state.data["load"].Num?
      && -0.005 <= s.state.data["load"].x - (power + st.data["acpower"].x) <= 0.005
      && s.state.data["grid_status"]
         == GridStatusValue(tables, GridStatusCode(st.data["line_frequency"], Scaled(Int16(r[14]), Int16(r[15]), 2)))
  {
    var power := Scaled(Int16(r[16]), Int16(r[20]), 2).x;
    var mf := Scaled(Int16(r[14]), Int16(r[15]), 2);
    var s1 := st.(data := MeterMeasurements(st.data, "m1_", r));
    assert s1.data["acpower"] == st.data["acpower"] && s1.data["line_frequency"] == st.data["line_frequency"];
    var inverterPower := st.data["acpower"].x;
    var load := Round(power + inverterPower, 2);
    assert -0.005 <= load - (power + inverterPower) <= 0.005 by {
      RoundWithinHalfUnit(power + inverterPower, 2);
      assert Pow10(2) == 100.0;
    }
    var s2 := Put(s1, "load", Num(load));
    assert s2.data["line_frequency"] == st.data["line_frequency"];
    var code := GridStatusCode(st.data["line_frequency"], mf);
    assert ReadMeter(st, tables, "m1_", Some(r)) == Step(Returned(Bool(true)), Put(s2, "grid_status", GridStatusValue(tables, code)));
  }

  /** Without a numeric inverter power the primary meter leaves the stored
      load as it was, whether it returns or raises. */
  lemma PrimaryMeterKeepsLoad(st: HubState, tables: Tables, r: seq<Word>)
    requires |r| == 103 && !Get(st.data, "acpower").Num?
    ensures Get(ReadMeter(st, tables, "m1_", Some(r)).state.data, "load") == Get(st.data, "load")
  {
    var d1 := MeterMeasurements(st.data, "m1_", r);
    assert Get(d1, "acpower") == Get(st.data, "acpower");
    assert Get(d1, "load") == Get(st.data, "load");
  }

  /** The primary meter raises, after storing its measurements and the
      load, when the inverter frequency is missing. */
  lemma PrimaryMeterNeedsInverterFrequency(st: HubState, tables: Tables, r: seq<Word>)
    requires |r| == 103 && "line_frequency" !in st.data
    ensures ReadMeter(st, tables, "m1_", Some(r)).outcome == Raised
  {
    var d1 := MeterMeasurements(st.data, "m1_", r);
    assert "line_frequency" !in d1;
  }

  /** The frequency rules at and around their boundaries. */
  lemma GridStatusExamples()
    ensures GridStatusCode(Num(50.0), Num(0.0)) == Some(3)
    ensures GridStatusCode(Num(52.0), Num(50.0)) == None
    ensures GridStatusCode(Num(53.0), Num(0.0)) == Some(1)
    ensures GridStatusCode(Num(0.0), Num(50.0)) == Some(2)
    ensures GridStatusCode(Num(0.0), Num(0.0)) == Some(0)
    ensures GridStatusCode(Num(0.0), Num(30.0)) == None
    ensures GridStatusCode(Null, Num(50.0)) == None
  {
  }
}
