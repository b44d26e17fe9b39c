# Fronius Modbus hub — a Dafny model

This project models the core of the `fronius_modbus` Home Assistant integration.

The hub polls a Fronius inverter over Modbus TCP. It reads fixed SunSpec register blocks:
- the common block (model 1);
- inverter (103), nameplate (120), settings (121), status (122) and controls (123);
- the four-module MPPT block (160);
- storage (124) and the meter block.

It decodes them into a `data` store of scaled numbers and labels. It runs a small storage-control state machine inside the storage decoder, and it writes battery commands back as register writes. A select entity maps an option label to one of the hub's mode presets.

The model has two layers:
- **Pure functions over a `HubState` record.** Every decoder, command and the polling cycle is a function.
  - `Decoders`, `StorageControl`, `Meter`, `Commands`, `Refresh`, `Startup`.
  - Helpers: `Values` (Python values, `round`, `calculate_value`), `Codec` (words, strings, `strip_escapes`), `Bitmask` (`bitmask_to_string`) and `HubModel` (the state record, the label tables and the register-write log).
- **The `FroniusHub.Hub` class.** Its fields are the hub's attributes. Each method updates them in place as the Python does, and is proved to end in exactly the state, and with the outcome, that the matching function gives. The select entity (`Select.FroniusModbusSelect`) drives a `Hub` the same way.

Notes on the model:
- **Register traffic.** A register read is an `Option<seq<Word>>` with the block's word count; `None` is a failed read. A register write is appended to the hub's `writes` log.
- **A failed read raises.** Every error path of `get_registers` (hub.py:334-346) raises before its `return None`. The log message formats `self._unit_id`, which the hub never sets. The I/O retry also calls itself without the required `unit_id`. So no decoder reaches its own `regs is None: return False` check: a failed read is the `Raised` outcome (`Decoders.FailedReadChangesNothing`). This changes the result in two places:
  - in a polling cycle, a meter whose read fails leaves the update result as it was (`Refresh.MeterFailuresKeepCycleResult`);
  - in `init_data`, a failed nameplate read leaves the probe as an exception (`Startup.InitDetectsCapabilities`).
- **Exceptions.** Python exceptions raised inside a decoder (a `[]` lookup of an unknown code) are the `Raised` outcome. The polling cycle catches them the way `_refresh_modbus_data` does.
- **The failsafe only arms on a derivation cycle.** It compares the local `ext_control_mode` with 7. Once a label is stored, that local holds the label, so the failsafe only acts in the cycle that derives the mode (`StorageControl.NoDerivationOnceLabelled`).
- **The select entity's preset sees the old mode.** It runs its preset before caching the new mode. `change_settings` therefore applies the mode-4/5 overrides of the mode that was active before (`Select.SelectUsesPreviousMode`).

## Model

All source paths are under `custom_components/fronius_modbus/`.

| member | source | states |
|---|---|---|
| Values.RoundHalfEven | custom_components/fronius_modbus/hub.py:776 | `round(y)`: within one half of `y`, exact on integers, and at a tie the even neighbour |
| Values.RoundWithinHalfUnit | custom_components/fronius_modbus/hub.py:373 | `round(x, digits)` is within half a unit of the last kept digit of `x` |
| Values.RoundExact | custom_components/fronius_modbus/hub.py:373 | rounding leaves a number with at most `digits` decimals unchanged |
| Values.Trunc | custom_components/fronius_modbus/hub.py:790 | `int(x)` truncates toward zero: at most one unit away, never past zero |
| Values.CalculateValue | custom_components/fronius_modbus/hub.py:371-376 | `calculate_value` is None exactly when the value or the scale factor is not numeric (a bool is not numeric); otherwise it is a number |
| Values.CalculateValueHundredths | custom_components/fronius_modbus/hub.py:629-632 | scale factor -2 with two digits gives exactly the count in hundredths |
| Values.CalculateValueWhole | custom_components/fronius_modbus/hub.py:633-635 | scale factor 0 with no digits gives the count itself |
| Values.CalculateValueExamples | custom_components/fronius_modbus/hub.py:371-376 | 1234 with scale factor -2 is 12.34, and 100 with scale factor 0 is 100 |
| Codec.Int16 | custom_components/fronius_modbus/hub.py:606-608 | an INT16 word reading lies in -32768..32767 and equals the word modulo 65536 |
| Codec.Int16OfEncode | custom_components/fronius_modbus/hub.py:790 | the 16-bit two's complement encoding of an INT16 value reads back as that value |
| Codec.EncodeOfInt16 | custom_components/fronius_modbus/hub.py:790 | encoding the INT16 reading of a word gives back the word |
| Codec.Uint32 | custom_components/fronius_modbus/hub.py:426 | a UINT32 pair reading is below 2^32, with the high word first |
| Codec.DecodeStringBytes | custom_components/fronius_modbus/hub.py:385 | the string reading of a word block is two characters per word, high byte first |
| Codec.RemoveControlsClean | custom_components/fronius_modbus/hub.py:381-382 | removing code points 0..31 leaves none of them, and leaves a string without them unchanged |
| Codec.RemoveControlsMembers | custom_components/fronius_modbus/hub.py:381-382 | a character survives the removal iff it was in the input and is not a control character |
| Codec.TrimStartSpec | custom_components/fronius_modbus/hub.py:382 | the left trim removes a prefix made only of whitespace, and the result does not start with whitespace |
| Codec.TrimEndSpec | custom_components/fronius_modbus/hub.py:382 | the right trim removes a suffix made only of whitespace, and the result does not end with whitespace |
| Codec.StripEscapesClean | custom_components/fronius_modbus/hub.py:378-382 | `strip_escapes` gives a contiguous piece of the control-free text with no controls and no whitespace at either end |
| Codec.StripEscapesIdempotent | custom_components/fronius_modbus/hub.py:378-382 | stripping twice is stripping once |
| Codec.StripEscapesExample | custom_components/fronius_modbus/hub.py:378-382 | " X\0 " strips to "X" |
| Bitmask.SetBits | custom_components/fronius_modbus/hub.py:359-360 | the positions visited are exactly the set bits below `bits`, in ascending order |
| Bitmask.Truncate | custom_components/fronius_modbus/hub.py:368 | the `[:max_length]` slice is a prefix of at most `max_length` characters, the whole text when it fits |
| Bitmask.BitmaskToString | custom_components/fronius_modbus/hub.py:356-369 | the bit loop returns the comma-joined labels of the set low bits, truncated, or the default |
| Bitmask.BitmaskDefault | custom_components/fronius_modbus/hub.py:367-369 | the default is returned iff none of the low `bits` bits is set; otherwise it is the truncated join |
| Bitmask.BitmaskLowBitsOnly | custom_components/fronius_modbus/hub.py:359 | bits at or above `bits` never change the result |
| Bitmask.BitmaskExampleLabels | custom_components/fronius_modbus/hub.py:356-369 | mask 5 over labels A, B, C gives "A,C" |
| Bitmask.BitmaskExampleUndefined | custom_components/fronius_modbus/hub.py:363-364 | a set bit past the label list renders as "bit 3 undefined" |
| Bitmask.BitmaskExampleDefault | custom_components/fronius_modbus/hub.py:367-369 | a mask whose only set bit is bit 16 gives the default with 16 bits |
| HubModel.InitialState | custom_components/fronius_modbus/hub.py:69-76 | a new hub has an empty store, no capabilities, ceilings of 11000 W, extended mode 0 and no writes |
| HubModel.Scaled | custom_components/fronius_modbus/hub.py:371-376 | a register value with a register scale factor always gives a number, never None |
| HubModel.ScaledIsRounded | custom_components/fronius_modbus/hub.py:371-376 | that number is within half a unit of its last kept digit of `value·10^sf` |
| Commands.StorageControlModeWrites | custom_components/fronius_modbus/hub.py:766-770 | a mode in 0..3 is written as is; any other mode writes nothing |
| Commands.MinimumReserveWrites | custom_components/fronius_modbus/hub.py:772-777 | a reserve below 5 writes nothing; otherwise one write of the reserve in hundredths, within one half |
| Commands.RatePayloadReadsBack | custom_components/fronius_modbus/hub.py:788-793 | a rate in -100..100 % fits one register, and its INT16 reading is within one hundredth of a percent of the rate |
| Commands.RatePayloadExact | custom_components/fronius_modbus/hub.py:788-793 | an integral rate in -100..100 reads back as exactly 100 times the rate |
| Commands.RateFromWatts | custom_components/fronius_modbus/hub.py:779-786 | the requested watts become a percentage in -100..100 with the sign of the request, exact inside the ceiling; zero watts against a zero ceiling divides by zero |
| Commands.ShareOfCeiling | custom_components/fronius_modbus/hub.py:785 | within the ceiling, the share lies in -1..1, keeps the sign, and times the ceiling gives back the watts |
| Commands.RateWattsWrite | custom_components/fronius_modbus/hub.py:779-809 | `set_*_rate_w` writes one rate register whose INT16 reading is within ±10000, or raises only for zero watts against a zero ceiling |
| Commands.ChangeSettings | custom_components/fronius_modbus/hub.py:811-827 | `change_settings` only appends writes, touches only the four limit keys, and changes nothing else |
| Commands.ChangeSettingsEffect | custom_components/fronius_modbus/hub.py:811-827 | the writes are mode, charge rate, discharge rate, then the reserve write when a reserve of at least 5 is given; extended mode 4 zeroes the stored discharge limit and 5 the charge limit |
| Commands.PresetWrites | custom_components/fronius_modbus/hub.py:829-873 | the register payloads each preset sends (10000 = 100 %, 0, 55536 = -100 %, reserve 700) |
| Commands.PresetRatesReadBack | custom_components/fronius_modbus/hub.py:833-873 | every preset's mode is valid and its rates read back exactly from the registers |
| Decoders.FailedReadChangesNothing | custom_components/fronius_modbus/hub.py:334-346 | on a failed read `get_registers` raises before any decoder runs, so each decoder raises and changes nothing |
| Decoders.DeviceInfoOnlyStoresData | custom_components/fronius_modbus/hub.py:387-406 | the common-block decoder changes only the data store |
| Decoders.InverterOnlyStoresData | custom_components/fronius_modbus/hub.py:408-452 | the inverter decoder changes only the data store |
| Decoders.StatusOnlyStoresData | custom_components/fronius_modbus/hub.py:480-496 | the status decoder changes only the data store |
| Decoders.SettingsOnlyStoresData | custom_components/fronius_modbus/hub.py:498-515 | the settings decoder changes only the data store |
| Decoders.ControlsOnlyStoresData | custom_components/fronius_modbus/hub.py:517-532 | the controls decoder changes only the data store |
| Decoders.SettingsMaxPower | custom_components/fronius_modbus/hub.py:503-511 | the settings decoder returns True and stores only `max_power`, within half a hundredth of word 0 times 10 to the signed word 20 |
| Decoders.ControlsFlags | custom_components/fronius_modbus/hub.py:522-530 | the controls decoder raises iff one of the codes in words 2, 7, 12 and signed 20 has no label; otherwise it stores exactly the four labels under Conn, WMaxLim_Ena, OutPFSet_Ena and VArPct_Ena |
| Decoders.MpptOnlyStoresData | custom_components/fronius_modbus/hub.py:534-580 | the MPPT decoder changes only the data store |
| Decoders.RegisterStringClean | custom_components/fronius_modbus/hub.py:384-385 | text read from registers has no controls and no outer whitespace |
| Decoders.DeviceInfoKeys | custom_components/fronius_modbus/hub.py:387-406 | manufacturer, model, options, version and serial come from words 0-16, 16-32, 32-40, 40-48 and 48-64 under the prefix; unit_id is word 64 |
| Decoders.DeviceInfoStringsClean | custom_components/fronius_modbus/hub.py:387-406 | every stored device string is clean |
| Decoders.MpptNeedsFourModules | custom_components/fronius_modbus/hub.py:541-546 | a module count other than 4 returns None and stores nothing |
| Decoders.MpptPowerSums | custom_components/fronius_modbus/hub.py:568-573 | pv_power is module 1 plus module 2 and storage_power is module 4 minus module 3 |
| Decoders.NameplateStorageFlag | custom_components/fronius_modbus/hub.py:469-476 | DER type 82 turns storage on and nothing turns it off; the ceilings become words 21 and 23 |
| Decoders.InverterPower | custom_components/fronius_modbus/hub.py:421-443 | the AC power is stored whatever the status code, within half a hundredth of the signed word 12 times 10 to the signed word 13 |
| Decoders.InverterFrequency | custom_components/fronius_modbus/hub.py:423-444 | the line frequency is stored whatever the status code, within half a hundredth of the signed word 14 times 10 to the signed word 15 |
| Decoders.InverterStatusAndEvents | custom_components/fronius_modbus/hub.py:432-452 | raises iff the vendor status code is unknown, keeping all but the ten measurements; otherwise True with the status label, the code, and the event text ("None" iff none of the 32 event bits is set, else the truncated label join), and no key beyond these thirteen changes |
| Decoders.StatusConnections | custom_components/fronius_modbus/hub.py:485-495 | raises iff one of the three connection codes is unknown, keeping all but the connection labels already stored; otherwise True with the PV, storage and ECP labels, and no key beyond these and the controls text changes |
| Decoders.InverterUnknownStatus | custom_components/fronius_modbus/hub.py:447 | an unknown vendor status raises after the measurements are stored and before the status |
| Decoders.StatusControlsNormal | custom_components/fronius_modbus/hub.py:494 | the active-controls text is "Normal" iff none of the low 16 bits of the control word is set |
| StorageControl.DeriveExtendedMode | custom_components/fronius_modbus/hub.py:655-672 | first-match derivation, each outcome as an iff: none iff raw is outside 0..3; 0 iff raw 0; 7 iff raw ∈ {1,3} with charge rate 0; 1 iff raw 1 otherwise; 4 iff raw ∈ {2,3} with a negative discharge rate, outside the 7 case; 5 iff raw ∈ {2,3}, discharge ≥ 0 and charge < 0; 6 iff raw ∈ {2,3}, discharge 0, charge ≥ 0, outside the 7 case; 2 iff raw 2 with discharge > 0 and charge ≥ 0; 3 iff raw 3 with both rates > 0 |
| StorageControl.DerivedModeOfPresets | custom_components/fronius_modbus/hub.py:833-873 | re-deriving from what each preset wrote gives auto 0, charge 1, discharge 2, charge/discharge 3, grid charge 6, grid discharge 7, block discharge 6, block charge 7, calibrate 4 |
| StorageControl.StorageFailedRead | custom_components/fronius_modbus/hub.py:583-586 | a failed storage read raises out of `get_registers` and changes nothing |
| StorageControl.SplitRateInvariant | custom_components/fronius_modbus/hub.py:638-649 | after a split, limit and grid power are non-negative, at most one is non-zero, and their difference is the register in percent |
| StorageControl.DebounceEffect | custom_components/fronius_modbus/hub.py:636-652 | nothing changes when the stored control mode equals the new label; otherwise control_mode becomes the label, each rate register is split into limit and grid power (both non-negative, one of them 0, the other the absolute power over 100), and every other key stays |
| StorageControl.BeforeDerivation | custom_components/fronius_modbus/hub.py:626-652 | measurements and debounce keep the stored extended mode and store soc as word 6 in hundredths |
| StorageControl.NoDerivationOnceLabelled | custom_components/fronius_modbus/hub.py:654-686 | once a label is stored, no derivation runs and the failsafe never acts: mode, writes and label stay |
| StorageControl.DischargeCalibrationUnreachable | custom_components/fronius_modbus/hub.py:677-680 | in raw mode 2 the 100 % branch never writes, since 7 is derived only from raw 1 or 3 |
| StorageControl.FirstReadDerivesSeven | custom_components/fronius_modbus/hub.py:655-676 | a first read in raw mode 3 with charge rate 0 stores and caches mode 7 and hands 7 to the failsafe |
| StorageControl.FailsafeAtLowCharge | custom_components/fronius_modbus/hub.py:681-686 | the armed failsafe in raw mode 3 at soc ≤ 5 % writes mode 0, rates 10000/10000 and reserve 3000, stores the label of mode 0 and resets the cached mode to 0 |
| StorageControl.CalibrationLowBoundary | custom_components/fronius_modbus/hub.py:681-686 | deriving 7 in raw mode 3 at soc ≤ 5 % writes mode 0, rates 10000/10000 and reserve 3000, and resets the mode to 0 |
| StorageControl.CalibrationAboveLowBoundary | custom_components/fronius_modbus/hub.py:676-686 | above 5 % the same read only derives and caches mode 7 |
| Meter.GridStatusCode | custom_components/fronius_modbus/hub.py:733-752 | open band (48,52) gives 3, (52,54) gives 1; below 1 Hz, meter above 48 gives 2 and both below 1 give 0 |
| Meter.MeterFailedRead | custom_components/fronius_modbus/hub.py:690-694 | a failed meter read raises out of `get_registers` and changes nothing |
| Meter.SecondaryMeterOwnKeys | custom_components/fronius_modbus/hub.py:713-721 | a meter under another prefix stores only its eight prefixed keys |
| Meter.PrimaryMeterLoadAndStatus | custom_components/fronius_modbus/hub.py:723-757 | for `m1_` the load is within 0.005 of meter power plus inverter power, and the grid status follows the frequencies |
| Meter.PrimaryMeterKeepsLoad | custom_components/fronius_modbus/hub.py:723-727 | for `m1_` without a numeric inverter power the stored load is left as it was |
| Meter.PrimaryMeterNeedsInverterFrequency | custom_components/fronius_modbus/hub.py:735 | for `m1_` a missing inverter frequency raises |
| Meter.GridStatusExamples | custom_components/fronius_modbus/hub.py:737-752 | 50 Hz gives 3, exactly 52 Hz gives nothing, 53 gives 1, 0 with 50 gives 2, 0 with 0 gives 0, 0 with 30 and a None frequency give nothing |
| Refresh.InverterPhaseResult | custom_components/fronius_modbus/hub.py:244-266 | after the four decoders that always run, the update result is True iff the controls block was read and its four flag codes are known, whatever the first three decoders returned or raised |
| Refresh.IdleCycle | custom_components/fronius_modbus/hub.py:237-243 | without entities or without a connection the cycle returns False and changes nothing |
| Refresh.MeterExceptionKeepsResult | custom_components/fronius_modbus/hub.py:268-274 | with the inverter frequency missing every meter raises, read or not, so the update result stays as it was |
| Refresh.FailedMeterReadsKeepProgress | custom_components/fronius_modbus/hub.py:268-274 | meters whose reads fail leave the update result and the hub as they were |
| Refresh.MeterFailuresKeepCycleResult | custom_components/fronius_modbus/hub.py:245-290 | without MPPT and storage, failed meter reads leave the cycle's result to the controls decoder |
| Refresh.MetersOnlyStoreData | custom_components/fronius_modbus/hub.py:268-274 | the meter loop changes only the data store |
| Refresh.PhasesOnlyStoreData | custom_components/fronius_modbus/hub.py:245-281 | everything before the storage block changes only the data store |
| Refresh.StorageDecidesResult | custom_components/fronius_modbus/hub.py:283-290 | with storage configured the cycle's result is the storage decoder's, False on a failed read |
| Refresh.MpptCountSilencesCycle | custom_components/fronius_modbus/hub.py:276-281 | without storage, a module count other than 4 makes the cycle return None |
| Startup.MeterPrefix | custom_components/fronius_modbus/hub.py:101-105 | meter n's prefix is `m`, its digit, `_` |
| Startup.MeterPrefixesDistinct | custom_components/fronius_modbus/hub.py:101-105 | different meters get different prefixes |
| Startup.MeterInfosOnlyStoreData | custom_components/fronius_modbus/hub.py:101-105 | the meter common blocks change only the data store |
| Startup.InitNeedsInverterInfo | custom_components/fronius_modbus/hub.py:79-86 | an unreadable inverter common block raises |
| Startup.InitDetectsCapabilities | custom_components/fronius_modbus/hub.py:78-116 | MPPT is on iff a four-module block was read, meters iff some are configured, storage iff DER type 82; True when the nameplate is read and an exception when it is not; nothing is written |
| Startup.TooManyMetersSkipsNameplate | custom_components/fronius_modbus/hub.py:95-97 | more than five meters return None before the meters and the nameplate are read |
| FroniusHub.Hub.constructor | custom_components/fronius_modbus/hub.py:53-76 | a new hub is in the initial state |
| FroniusHub.Hub.SetStorageControlMode | custom_components/fronius_modbus/hub.py:766-770 | appends the mode write, or nothing for an unsupported mode |
| FroniusHub.Hub.SetMinimumReserve | custom_components/fronius_modbus/hub.py:772-777 | appends the reserve write, or nothing below 5 |
| FroniusHub.Hub.SetDischargeRate | custom_components/fronius_modbus/hub.py:788-793 | appends the discharge-rate payload |
| FroniusHub.Hub.SetChargeRate | custom_components/fronius_modbus/hub.py:804-809 | appends the charge-rate payload |
| FroniusHub.Hub.SetDischargeRateW | custom_components/fronius_modbus/hub.py:779-786 | clamps against the discharge ceiling and writes, or raises on 0/0 leaving the hub as it was |
| FroniusHub.Hub.SetChargeRateW | custom_components/fronius_modbus/hub.py:795-802 | clamps against the charge ceiling and writes, or raises on 0/0 leaving the hub as it was |
| FroniusHub.Hub.ChangeSettings | custom_components/fronius_modbus/hub.py:811-827 | leaves the hub as `change_settings` specifies |
| FroniusHub.Hub.RunPreset | custom_components/fronius_modbus/hub.py:829-873 | each preset is `change_settings` with its fixed arguments |
| FroniusHub.Hub.ReadDeviceInfoData | custom_components/fronius_modbus/hub.py:387-406 | updates the hub as the common-block decoder specifies |
| FroniusHub.Hub.ReadInverterData | custom_components/fronius_modbus/hub.py:408-452 | updates the hub as the inverter decoder specifies |
| FroniusHub.Hub.ReadNameplateData | custom_components/fronius_modbus/hub.py:454-478 | updates the hub as the nameplate decoder specifies |
| FroniusHub.Hub.ReadStatusData | custom_components/fronius_modbus/hub.py:480-496 | updates the hub as the status decoder specifies |
| FroniusHub.Hub.ReadSettingsData | custom_components/fronius_modbus/hub.py:498-515 | updates the hub as the settings decoder specifies |
| FroniusHub.Hub.ReadControlsData | custom_components/fronius_modbus/hub.py:517-532 | updates the hub as the controls decoder specifies |
| FroniusHub.Hub.ReadMpptData | custom_components/fronius_modbus/hub.py:534-580 | updates the hub as the MPPT decoder specifies |
| FroniusHub.Hub.ReadMeterData | custom_components/fronius_modbus/hub.py:690-759 | updates the hub as the meter decoder specifies |
| FroniusHub.Hub.UpdateCachedLimits | custom_components/fronius_modbus/hub.py:634-652 | the debounce step |
| FroniusHub.Hub.DeriveExtendedModeOnce | custom_components/fronius_modbus/hub.py:654-674 | the one-time derivation, with None when the label lookup raises |
| FroniusHub.Hub.CalibrationFailsafe | custom_components/fronius_modbus/hub.py:676-686 | the calibration failsafe |
| FroniusHub.Hub.ReadStorageData | custom_components/fronius_modbus/hub.py:582-688 | updates the hub as the storage decoder specifies |
| FroniusHub.Hub.ReadMeterInfos | custom_components/fronius_modbus/hub.py:101-106 | the meter loop reads each meter's common block under `m{i}_`, a failing meter skipped, as the start-up probe specifies |
| FroniusHub.Hub.InitData | custom_components/fronius_modbus/hub.py:78-116 | updates the hub as the start-up probe specifies |
| FroniusHub.Hub.RefreshModbusData | custom_components/fronius_modbus/hub.py:235-290 | the decoders in order behind their handlers; the meter loop keeps the result of a raising meter |
| FroniusHub.Hub.AsyncRefreshModbusData | custom_components/fronius_modbus/hub.py:178-183 | every subscriber is called back iff the cycle's result is truthy |
| Select.FirstKeySpec | custom_components/fronius_modbus/select.py:41-45 | `get_key` finds a key iff some entry has the label, and finds the first such entry's key |
| Select.GetKey | custom_components/fronius_modbus/select.py:41-45 | the loop with early return computes the first matching key |
| Select.PresetOf | custom_components/fronius_modbus/select.py:58-75 | exactly the indices 0..8 dispatch a preset, and never `restore_defaults` |
| Select.PresetOfInjective | custom_components/fronius_modbus/select.py:58-75 | different indices dispatch different presets |
| Select.SelectKnownOption | custom_components/fronius_modbus/select.py:55-79 | a known label sends its preset's writes, is stored under the key, and caches its index |
| Select.SelectUnknownOption | custom_components/fronius_modbus/select.py:55-79 | an unknown label writes nothing, is still stored, and caches None as the mode |
| Select.SelectUsesPreviousMode | custom_components/fronius_modbus/select.py:77-78 | leaving mode 4 for auto stores a discharge limit of 0 although 100 % is written, since the mode is cached after the preset |
| Select.FroniusModbusSelect.constructor | custom_components/fronius_modbus/select.py:28-35 | the entity keeps its hub, key and option table |
| Select.FroniusModbusSelect.SelectOption | custom_components/fronius_modbus/select.py:55-79 | updates the hub as the selection specifies, after which `current_option` shows the picked label |

## Left out

- Modbus transport, locking and reconnection: `connect`, `close`, `_check_and_reconnect`, `read_holding_registers`, `write_registers` and the lock. Reads are given register sequences, and a connection failure is the `connected` flag of a cycle. Writes are log entries, without unit id or address.
- The retry in `get_registers` (hub.py:334-346) is not modelled as a second read. Its recursive call omits `unit_id`, so it raises instead of retrying. The model takes one read per block, and `None` (a failed read) raises.
- The HTTP storage metadata fetch `get_json_storage_info` and its call at the end of `init_data`: network I/O and JSON.
- Home Assistant plumbing: entity registration, the interval timer, `device_info_*`, `validate`, the sensors and `async_write_ha_state`. `async_refresh_modbus_data` is kept only as the notify-or-not decision over a subscriber count.
- Concurrency between command writes and poll cycles: every operation runs to completion.
- Values.Round: Python rounds binary doubles; the model rounds exact reals half-to-even. A value whose double is just below or above a tie may round the other way.
- Values.CalculateValue: requires an integral numeric scale factor. Every caller passes an INT16 word or a literal, and a fractional power of ten is not representable here.
- Codec.DecodeString: the pymodbus string conversion is not part of this model. It is assumed to give one character per byte, high byte first, with no decoding errors.
- The label tables of `const.py` are not part of this model. They are inputs (`HubModel.Tables`): `[]` on a missing code raises, `.get` gives None.
- Register addresses come from `const.py`, so a write names its register by role.
- `strip_escapes(None)` returning None is left out, because register text is never None.
- The per-meter unit ids are left out: every meter of a cycle is one more register read.
- Meter: the `m1_power` and `acpower` numbers are compared only through `load`. The non-numeric warnings are logging.
