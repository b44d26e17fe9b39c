/**
  The state the Fronius hub keeps between calls, as a value: the data store,
  the capability flags, the nameplate rate ceilings, the extended storage
  control mode and the log of register writes sent to the inverter. The
  Hub class of module FroniusHub holds the same state in fields.
 */
module HubModel {
  import opened Values
  import opened Codec

  /** The inverter registers the command path writes. */
  datatype Register =
    | StorageControlModeRegister
    | MinimumReserveRegister
    | DischargeRateRegister
    | ChargeRateRegister

  /** One `write_registers` call: the register and the payload sent. */
  datatype RegisterWrite = RegisterWrite(register: Register, payload: int)

  /** The lookup tables of the integration's constants: code-to-label
      dictionaries and the label lists of the bit fields. */
  datatype Tables = Tables(
    froniusInverterStatus: map<int, string>,
    connectionStatusCondensed: map<int, string>,
    ecpConnectionStatus: map<int, string>,
    inverterControls: seq<string>,
    inverterEvents: seq<string>,
    controlStatus: map<int, string>,
    chargeGridStatus: map<int, string>,
    chargeStatus: map<int, string>,
    storageControlMode: map<int, string>,
    storageExtControlMode: map<int, string>,
    gridStatus: map<int, string>)

  /** The hub's state. `extendedMode` is `storage_extended_control_mode`,
      which a selection can set to None. */
  datatype HubState = HubState(
    data: map<string, Value>,
    meterConfigured: bool,
    mpptConfigured: bool,
    storageConfigured: bool,
    maxChargeRateW: nat,
    maxDischargeRateW: nat,
    extendedMode: Option<int>,
    writes: seq<RegisterWrite>)

  /** How a call ended: it returned a Python value, or it raised. */
  datatype Outcome = Returned(value: Value) | Raised

  /** A call's outcome and the state it leaves behind; a call that raises
      keeps every change it made before the exception. */
  datatype Step = Step(outcome: Outcome, state: HubState)

  /** The state of a freshly constructed hub. */
  function InitialState(): (st: HubState)
    ensures st.data == map[] && st.writes == []
    ensures !st.meterConfigured && !st.mpptConfigured && !st.storageConfigured
    ensures st.maxChargeRateW == 11000 && st.maxDischargeRateW == 11000
    ensures st.extendedMode == Some(0)
  {
    HubState(map[], false, false, false, 11000, 11000, Some(0), [])
  }

  /** A register read: None when the read failed, otherwise exactly the
      number of words asked for. */
  predicate ReadShape(read: Option<seq<Word>>, count: nat)
  {
    read.Some? ==> |read.value| == count
  }

  /** `table[key]`: the label, or None where Python raises KeyError. */
  function Lookup(table: map<int, string>, key: Option<int>): Option<string>
  {
    if key.Some? && key.value in table then Some(table[key.value]) else None
  }

  /** `table.get(key)` stored as a value: the label or None. */
  function LabelOrNone(table: map<int, string>, key: int): Value
  {
    if key in table then Str(table[key]) else Null
  }

  /** `self.data[key] = v`. */
  function Put(st: HubState, key: string, v: Value): (r: HubState)
    ensures r.data == st.data[key := v]
    ensures r == st.(data := r.data)
  {
    st.(data := st.data[key := v])
  }

  /** `calculate_value` on register integers. */
  function Scaled(value: int, sf: int, digits: nat): (r: Value)
    ensures r.Num?
  {
    CalculateValue(Num(value as real), Num(sf as real), digits)
  }

  /** A scaled register value is `value·10^sf` rounded to `digits`
      decimals. */
  lemma ScaledExact(value: int, sf: int, digits: nat)
    ensures Scaled(value, sf, digits) == Num(Round(value as real * Pow10(sf), digits))
  {
    var v, s := Num(value as real), Num(sf as real);
    assert s.x.Floor == sf && IsIntegral(s.x);
    CalculateValueOfNumbers(v, s, digits);
    RoundCong(v.x * Pow10(s.x.Floor), value as real * Pow10(sf), digits);
  }

  /** Hence it lies within half a unit of its last kept digit of
      `value·10^sf`. */
  lemma ScaledIsRounded(value: int, sf: int, digits: nat)
    ensures -0.5 / Pow10(digits) <= Scaled(value, sf, digits).x - value as real * Pow10(sf) <= 0.5 / Pow10(digits)
  {
    ScaledExact(value, sf, digits);
    RoundWithinHalfUnit(value as real * Pow10(sf), digits);
  }

  /** The exact quantity a register value stands for: `value·10^sf`. */
  function Exact(value: int, sf: int): real
  {
    value as real * Pow10(sf)
  }

  /** Everything but the data store is as before. */
  predicate OnlyDataChanged(st: HubState, st': HubState)
  {
    st' == st.(data := st'.data)
  }

  /** The keys outside `keys` keep their entries. */
  predicate OthersUnchanged(data: map<string, Value>, data': map<string, Value>, keys: set<string>)
  {
    (forall k :: k in data && k !in keys ==> k in data' && data'[k] == data[k])
    && (forall k :: k in data' && k !in keys ==> k in data)
  }
}
