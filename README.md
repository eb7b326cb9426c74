# AS7343 spectral sensor driver — a verified Dafny model

This project models the Rust driver for the ams AS7343 18-channel spectral
sensor (`src/as7343-rs/src/as7343.rs`). The driver reaches the chip over an
I2C register bus. Every operation is a short sequence of three primitive
transfers:

- a read of one or more consecutive registers;
- a write-then-read of one register;
- a write of one register.

On top of those transfers sit the read-modify-write configuration setters,
the bank-switched chip-ID read and LED write, the start-up sequence `begin`,
the status and saturation bits, the data-ready polling loop, the single and
bulk channel reads, and the datasheet calibration formula that turns a raw
count into an irradiance in µW/m².

How the model is built:

- **Registers** (`registers.dfy`) holds the register map, the gain, LED,
  auto-SMUX and channel-slot constants, and a name-to-address table whose
  inverse proves that no two names share an address.
- **Bus** (`bus.dfy`) is the bus as a value. It holds a file of 256 byte
  registers, a log of the transfers attempted so far, and the STATUS_2 bytes
  the device posts during the driver's 1 ms pauses. A failure oracle
  (`faults`, a set of attempt numbers) decides which transfers fail. `Exec`
  runs a fixed sequence of transfers the way Rust's `?` chains do: in order,
  stopping at the first failure.
- **Transfers** holds the three primitives and the two shapes every register
  accessor is built from: read-then-return and read-modify-write.
- **Fields** holds the bit and byte transformations: masks, status-bit tests
  and the pairing of 16-bit values.
- **Config**, **Polling** and **Readout** define one specification function
  per driver operation, over the bus value and the oracle. Their lemmas state
  what each operation does to the registers, what it returns and how it
  reports a failed transfer.
- **Calibration** holds the datasheet formula (v6-00, section 6, figure 8)
  over exact reals.
- **Channels** holds the 36-byte bulk decode and its inverse.
- **Driver** holds the class `As7343`. It keeps the register file as an
  `array` that writes update in place, and the transfer log and status feed
  as fields. Each method is proved to reach the state, and to return the
  value, that its specification function computes from the state it started
  in.

Where the code has a defect, both versions are modelled. The `...AsWritten`
member follows the code as it stands, and a lemma exhibits the defect. The
unsuffixed member is the corrected version, and the rest of the model uses it.
See "## Findings".

Two behaviours that a reader of the driver's API might expect otherwise; the
model follows the code:

- The bounded `wait_for_data(n)` with its counter fixed gives up after `n + 1`
  polls that found no data, not after `n`. It compares `count > wait_time`
  after incrementing (as7343.rs:386-387).
- ATIME and ASTEP are set by two separate methods, not one.

## Model

| member | source | states |
|---|---|---|
| Registers.ChannelAddresses | src/as7343-rs/src/as7343.rs:87-158 | channel `c`'s data registers are at `0x95 + 2c` (low) and `0x96 + 2c` (high), agreeing with the CHc_DATA_L/H constants for c in 0..17 |
| Registers.ChannelRegistersAt | src/as7343-rs/src/as7343.rs:87-158 | each channel data register is named again at its own address |
| Registers.NamedRegistersAt1 | src/as7343-rs/src/as7343.rs:12-24 | AUXID..SP_TH_LOW_LSB are each the only register at their literal address |
| Registers.NamedRegistersAt2 | src/as7343-rs/src/as7343.rs:25-39 | SP_TH_LOW_MSB..STATUS_5 are each the only register at their literal address |
| Registers.NamedRegistersAt3 | src/as7343-rs/src/as7343.rs:40-53 | STATUS_4..CFG10 are each the only register at their literal address |
| Registers.NamedRegistersAt4 | src/as7343-rs/src/as7343.rs:54-65 | PERS..AZ_CONFIG are each the only register at their literal address |
| Registers.NamedRegistersAt5 | src/as7343-rs/src/as7343.rs:66-81 | FD_TIME_1..FIFO_LVL are each the only register at their literal address |
| Registers.NamedRegistersAt6 | src/as7343-rs/src/as7343.rs:82-85 | FDATA_LOW/HIGH are each the only register at their literal address |
| Registers.ChannelIn | src/as7343-rs/src/as7343.rs:184-201 | the channel in slot `i` is the one whose slot constant is `i` |
| Registers.SlotsArePermutation | src/as7343-rs/src/as7343.rs:184-201 | the 18 channel constants are a bijection onto slots 0..17 |
| Bus.ExecPrefix | src/as7343-rs/src/as7343.rs:471-496 | a chain of transfers succeeds iff all go through; the failed one is attempted and nothing after it; only writes that went through land |
| Bus.ExecAppend | src/as7343-rs/src/as7343.rs:471-496 | running two chains in turn is running their concatenation, stopping at the first failure |
| Bus.ExecKeeps | src/as7343-rs/src/as7343.rs:490-496 | a register no transfer of the chain writes is unchanged |
| Bus.RmwEffect | src/as7343-rs/src/as7343.rs:482-496 | a read-modify-write lands its byte and nothing else when both transfers go through, and changes no register otherwise |
| Transfers.ReadSpec | src/as7343-rs/src/as7343.rs:482-488 | a read returns the `len` registers from `a` unless its attempt fails, and is one logged transfer |
| Transfers.ReadByteSpec | src/as7343-rs/src/as7343.rs:471-488 | a one-byte read returns `regs[a]` or a bus error, and changes no register |
| Transfers.WriteSpec | src/as7343-rs/src/as7343.rs:490-496 | a write lands `v` in `a` iff its attempt does not fail; a failure is a bus error |
| Transfers.ReadFieldEffect | src/as7343-rs/src/as7343.rs:341-357 | a getter returns `g(regs[a])` or a bus error, changes no register and reports exactly its failed transfer |
| Transfers.UpdateEffect | src/as7343-rs/src/as7343.rs:238-245 | a setter stores `g(old)` in `a` iff both of its transfers go through, and changes nothing otherwise |
| Fields.WithBank | src/as7343-rs/src/as7343.rs:238-245 | CFG0 bit 4 is set iff `low`; every other CFG0 bit is kept |
| Fields.WithPower | src/as7343-rs/src/as7343.rs:255-262 | ENABLE bit 0 is set iff `power`; every other ENABLE bit is kept |
| Fields.WithMeasurement | src/as7343-rs/src/as7343.rs:332-339 | ENABLE bit 1 is set iff `enabled`; every other ENABLE bit is kept |
| Fields.WithSmux | src/as7343-rs/src/as7343.rs:264-268 | CFG20 bits 6:5 are `smux & 3`, bit 4 is cleared, bits 7 and 3:0 are kept |
| Fields.WithGainAsWritten | src/as7343-rs/src/as7343.rs:297-301 | the 3-bit field reads `gain & 7`; CFG1 bits 7:3 are kept |
| Fields.WithGain | src/as7343-rs/src/as7343.rs:297-310 | the 5-bit field reads back every code 0..12 exactly; CFG1 bits 7:5 are kept |
| Fields.LedByteAsWritten | src/as7343-rs/src/as7343.rs:311-319 | the byte `(enabled ? 0xF0 : 0) \| (strength & 0x7F)`: bit 7 is `enabled`, and the strength field gains bits 6:4 when the LED is on |
| Fields.LedByte | src/as7343-rs/src/as7343.rs:311-319 | the corrected LED byte: bit 7 is `enabled`, and the strength field is `strength & 0x7F` |
| Fields.LedStrengthClobbered | src/as7343-rs/src/as7343.rs:315 | with the LED on, a strength below 0x70 never reads back as written; with the corrected byte it does |
| Fields.ClearDigitalSaturation | src/as7343-rs/src/as7343.rs:321-325 | STATUS_2 bit 4 is cleared and every other bit is kept, including analog saturation and data-ready |
| Fields.ClearAnalogSaturation | src/as7343-rs/src/as7343.rs:326-330 | STATUS_2 bit 3 is cleared and every other bit is kept, including digital saturation and data-ready |
| Fields.Combine | src/as7343-rs/src/as7343.rs:413-430 | the pairing `(hi << 8) + lo` has high byte `hi` and low byte `lo` |
| Fields.CombineValue | src/as7343-rs/src/as7343.rs:413-430 | the pairing equals `hi * 256 + lo` as an integer |
| Fields.CombineAsWritten | src/as7343-rs/src/as7343.rs:295 | the pairing `(hi << 8) & lo` is always 0 |
| Fields.SplitCombine | src/as7343-rs/src/as7343.rs:275-281 | the two bytes `set_astep` writes pair back to the step: `hi * 256 + lo == step` |
| Channels.DecodeChannels | src/as7343-rs/src/as7343.rs:410-431 | the bulk decode yields exactly 18 counts |
| Channels.DecodeValues | src/as7343-rs/src/as7343.rs:410-431 | slot `i` is `bytes[2i] + 256 * bytes[2i+1]` for every i in 0..17 |
| Channels.EncodeChannels | src/as7343-rs/src/as7343.rs:410-431 | the little-endian encoding of 18 counts is 36 bytes |
| Channels.DecodeEncode | src/as7343-rs/src/as7343.rs:410-431 | decoding the little-endian encoding of any 18 counts gives them back unchanged |
| Channels.EncodeDecode | src/as7343-rs/src/as7343.rs:410-431 | every 36-byte pattern is the encoding of its decoding, so the decode is injective |
| Config.SetBankEffect | src/as7343-rs/src/as7343.rs:238-245 | `set_bank` sets CFG0 bit 4 iff `low` and keeps the other CFG0 bits and every other register; on a failure nothing changes and an error is reported |
| Config.PowerEnableEffect | src/as7343-rs/src/as7343.rs:255-262 | `power_enable` sets ENABLE bit 0 iff `power` and keeps everything else; a failure changes nothing and is reported |
| Config.EnableMeasurementEffect | src/as7343-rs/src/as7343.rs:332-339 | `enable_spectral_measurement` sets ENABLE bit 1 iff `enabled` and keeps everything else; a failure changes nothing and is reported |
| Config.SetAutoSmuxEffect | src/as7343-rs/src/as7343.rs:264-268 | `set_auto_smux` writes `(CFG20 & 0x8F) \| ((smux & 3) << 5)` and keeps every other register |
| Config.ClearDigitalSaturationEffect | src/as7343-rs/src/as7343.rs:321-325 | the clear changes only STATUS_2 bit 4, and only when both transfers go through |
| Config.ClearAnalogSaturationEffect | src/as7343-rs/src/as7343.rs:326-330 | the clear changes only STATUS_2 bit 3, and only when both transfers go through |
| Config.ClearThenGetSaturation | src/as7343-rs/src/as7343.rs:321-357 | after a clear, that flag reads false; the other saturation flag and data-ready read as before |
| Config.AtimeRoundTrip | src/as7343-rs/src/as7343.rs:270-287 | `get_atime` after `set_atime(t)` returns `t`, when the transfers go through |
| Config.GetAstepAsWrittenEffect | src/as7343-rs/src/as7343.rs:289-296 | as written, `get_astep` changes no register, fails iff one of its reads fails, reports exactly those failures, and returns 0 |
| Config.GetAstepEffect | src/as7343-rs/src/as7343.rs:288-296 | the corrected `get_astep` returns `ASTEP_L + 256 * ASTEP_H`, changes no register and fails iff one of its reads fails |
| Config.AstepRoundTrip | src/as7343-rs/src/as7343.rs:275-296 | `set_astep(s)` writes `s & 0xFF` to 0xD4 and then `s >> 8` to 0xD5, with `hi*256 + lo == s`; the corrected `get_astep` then returns `s` |
| Config.AstepAsWrittenLost | src/as7343-rs/src/as7343.rs:289-296 | the `get_astep` as written returns 0 whatever ASTEP holds, so every non-zero step is lost |
| Config.GainRoundTripAsWritten | src/as7343-rs/src/as7343.rs:297-310 | as written, `get_gain` after `set_gain(g)` returns `g & 7`, which equals `g` iff g <= 7 (64X) |
| Config.GainRoundTrip | src/as7343-rs/src/as7343.rs:297-310 | for the gain codes 0..12 of as7343.rs:164-176, the corrected gain setter rejects codes above 12 before any transfer, keeps CFG1 bits 7:5, and every code 0..12 reads back exactly |
| Config.GetChipIdSuccess | src/as7343-rs/src/as7343.rs:247-253 | with no failures, `get_chip_id` selects the bank, reads 0x5A, deselects it and returns the ID; only CFG0 bit 4 differs, and it ends clear |
| Config.GetChipIdAsWrittenLeavesBank | src/as7343-rs/src/as7343.rs:248-251 | as written, a failed ID read returns the error with the bank still selected |
| Config.GetChipIdRestoresBank | src/as7343-rs/src/as7343.rs:247-253 | corrected (bank scoped): with the bank scoped, a failed ID read still ends with the bank deselected; the result is the ID iff the read went through |
| Config.GetChipIdAsWrittenReportsFaults | src/as7343-rs/src/as7343.rs:247-253 | as written, `get_chip_id` returns a bus error iff one of its attempted transfers failed, a failed bank selection or ID read included |
| Config.GetChipIdReportsFaults | src/as7343-rs/src/as7343.rs:247-253 | corrected (bank scoped): `get_chip_id` returns a bus error iff one of its attempted transfers failed |
| Config.EnableLedAsWrittenSuccess | src/as7343-rs/src/as7343.rs:311-319 | with no failures, `enable_led` selects the bank, writes `(enabled ? 0xF0 : 0) \| (strength & 0x7F)` to 0xCD and deselects the bank |
| Config.EnableLedAsWrittenLeavesBank | src/as7343-rs/src/as7343.rs:312-317 | as written, a failed LED write returns the error with the bank still selected and LED unchanged |
| Config.EnableLedAsWrittenReportsFaults | src/as7343-rs/src/as7343.rs:311-319 | as written, `enable_led` returns a bus error iff one of the transfers it attempted failed |
| Config.EnableLedReportsFaults | src/as7343-rs/src/as7343.rs:311-319 | corrected (bank scoped, on flag 0x80): `enable_led` returns a bus error iff one of the transfers it attempted failed |
| Config.EnableLedRestoresBank | src/as7343-rs/src/as7343.rs:311-319 | corrected (bank scoped, on flag 0x80): with the bank scoped, the bank ends deselected whether or not the LED write failed; LED holds the requested flag and strength iff it went through; the other CFG0 bits and every other register are kept |
| Config.BeginFound | src/as7343-rs/src/as7343.rs:218-228 | corrected (ID read with the bank scoped): with ID 0x81 and no failures, `begin` returns true after nine transfers, leaves CFG0 with bit 4 cleared, sets ENABLE bit 0 (other bits kept), writes CFG20 as `(old & 0x8F) \| (3 << 5)` and changes no other register |
| Config.BeginMismatch | src/as7343-rs/src/as7343.rs:229-232 | corrected (ID read with the bank scoped; `Config.BeginAsWrittenAgrees` carries it to the code as written): with any other ID, `begin` returns false and leaves ENABLE and CFG20 untouched |
| Config.BeginReportsFaults | src/as7343-rs/src/as7343.rs:218-236 | corrected (ID read with the bank scoped): `begin` returns a bus error iff one of the transfers it attempted failed |
| Config.BeginAsWrittenReportsFaults | src/as7343-rs/src/as7343.rs:218-236 | as written, `begin` returns a bus error iff one of the transfers it attempted failed, a failed bank selection included |
| Config.BeginAsWrittenAgrees | src/as7343-rs/src/as7343.rs:218-236 | when the five transfers of `get_chip_id` go through, `begin` as written and the corrected `begin` have the same result and state |
| Config.BeginAsWrittenLeavesBank | src/as7343-rs/src/as7343.rs:218-221 | as written, a failed ID read makes `begin` return the error with the bank still selected and ENABLE and CFG20 untouched; the corrected `begin` returns the error with the bank deselected |
| Polling.PollForeverFirstReady | src/as7343-rs/src/as7343.rs:360-372 | the unbounded loop stops at the first poll that fails (error) or finds bit 0x40 (true), after exactly that many polls |
| Polling.PollForeverPending | src/as7343-rs/src/as7343.rs:360-372 | if no poll fails or finds data, the unbounded loop is still waiting after all its polls |
| Polling.PollForeverNeverFalse | src/as7343-rs/src/as7343.rs:360-372 | the unbounded loop never answers false |
| Polling.PollForeverReadyLast | src/as7343-rs/src/as7343.rs:360-372 | when the unbounded loop answers, its answer is true and its last transfer is a STATUS_2 read that went through and found 0x40 |
| Polling.ShadowedIsForever | src/as7343-rs/src/as7343.rs:373-392 | as written, the bounded loop is the unbounded loop for every `wait_time > 0` |
| Polling.WaitForDataAsWrittenNeverTimesOut | src/as7343-rs/src/as7343.rs:359-396 | as written, `wait_for_data` never returns false |
| Polling.PollBoundedFirstReady | src/as7343-rs/src/as7343.rs:373-392 | the corrected bounded loop stops at the first failing or ready poll within the bound |
| Polling.PollBoundedTimesOut | src/as7343-rs/src/as7343.rs:373-392 | the corrected bounded loop answers false after `wait_time - count + 1` quiet polls |
| Polling.WaitForDataBounded | src/as7343-rs/src/as7343.rs:373-392 | corrected `wait_for_data(n)` with n > 0: false after n+1 quiet polls; the error or true of the first failing or ready poll k <= n |
| Polling.TimeoutCounterexample | src/as7343-rs/src/as7343.rs:386 | on a device that never becomes ready, `wait_for_data(1)` as written is still polling after any number of polls, while the corrected loop returns false |
| Polling.PollForeverKeeps | src/as7343-rs/src/as7343.rs:360-372 | polling changes no register other than STATUS_2 and only extends the transfer log |
| Readout.ReadChannelAsWrittenZero | src/as7343-rs/src/as7343.rs:398-405 | the value `read_channel` as written returns is always 0 |
| Readout.ReadChannelMatchesBulk | src/as7343-rs/src/as7343.rs:398-405 | the corrected `read_channel(c)` reads CHc_DATA_L then CHc_DATA_H and returns the count the bulk read decodes for slot `c` |
| Readout.ReadAllChannelsDecodes | src/as7343-rs/src/as7343.rs:407-432 | `read_all_channels` first rewrites ENABLE with bit 1 set; its last two transfers are a STATUS_2 poll that went through and saw 0x40, then the 36-byte read at 0x95; it returns slot i = `reg[2i] + 256*reg[2i+1]` of the bytes that read found, which are the data registers at call time |
| Readout.ReadAllChannelsLastPoll | src/as7343-rs/src/as7343.rs:408-432 | the transfer before the bulk read is a STATUS_2 read that went through with 0x40 set, and the counts decode the bytes the bulk read found |
| Readout.RawToBasicCountsValue | src/as7343-rs/src/as7343.rs:434-443 | corrected (five-bit gain, ASTEP paired with `+`, wide `atime + 1`): `raw_to_basic_counts` changes no register, makes four reads and returns the basic count for the device's gain, ATIME and ASTEP |
| Readout.RawToBasicCountsAsWrittenValue | src/as7343-rs/src/as7343.rs:434-443 | as written, the basic count uses the 3-bit gain and an ASTEP of 0 whatever the device holds |
| Readout.RawToUwm2Value | src/as7343-rs/src/as7343.rs:453-469 | corrected (five-bit gain, ASTEP paired with `+`, wide `atime + 1`): `raw_to_uwm2` changes no register, fails iff one of its four reads fails, and returns the calibration formula's irradiance for the device's current settings |
| Readout.RawToBasicCountsAsWrittenEffect | src/as7343-rs/src/as7343.rs:434-443 | as written, `raw_to_basic_counts` changes no register, fails iff one of its four reads fails, and uses the 3-bit gain, ATIME and an ASTEP of 0 |
| Readout.RawToUwm2AsWrittenValue | src/as7343-rs/src/as7343.rs:453-469 | as written, `raw_to_uwm2` changes no register, fails iff one of its four reads fails, and returns the irradiance for the 3-bit gain, ATIME and an ASTEP of 0, with no finite value at ATIME = 255 |
| Calibration.GainValue | src/as7343-rs/src/as7343.rs:435-438 | every gain multiplier is positive |
| Calibration.GainDoubles | src/as7343-rs/src/as7343.rs:446-449 | code 0 is 0.5X and each code doubles the multiplier of the one below, so code g >= 1 is `2^(g-1)` |
| Calibration.GainTable | src/as7343-rs/src/as7343.rs:164-176 | the named codes 0.5X, 1X, 64X, 1024X and 2048X have the multipliers their names say |
| Calibration.IntegrationTimeMs | src/as7343-rs/src/as7343.rs:270 | the integration time `(ATIME+1)(ASTEP+1) * 2.78 us` is at least one step |
| Calibration.BasicCounts | src/as7343-rs/src/as7343.rs:441-442 | basic count × gain × integration time (ms) = raw, and it is non-negative |
| Calibration.CalibrationBasicCounts | src/as7343-rs/src/as7343.rs:445-451 | reference basic count × gain × time = reference count, and it is positive for a positive count |
| Calibration.IrradianceClosedForm | src/as7343-rs/src/as7343.rs:462-468 | irradiance = raw × (ref gain × ref time) × ee / (ref count × gain × integration time) |
| Calibration.IrradianceLinearInEe | src/as7343-rs/src/as7343.rs:468 | the irradiance is linear in the reference irradiance `calibration_ee` |
| Calibration.IrradianceInverseInCount | src/as7343-rs/src/as7343.rs:462-468 | the irradiance is inversely proportional to `calibration_count` |
| Calibration.IrradianceAtReference | src/as7343-rs/src/as7343.rs:453-469 | a reading taken at the reference's own count, gain and time reproduces the reference irradiance |
| Calibration.ReferenceExample | src/as7343-rs/src/as7343.rs:453 | 5749 counts at 1024X with ATIME = ASTEP = 99 (27.8 ms), referenced to itself, gives back 155 |
| Calibration.BasicCountsAsWritten | src/as7343-rs/src/as7343.rs:439-442 | as written, the u8 `atime + 1` and u16 `astep + 1` wrap at 255/65535 and leave no finite result there; elsewhere it equals the exact basic count |
| Calibration.LongestIntegrationLost | src/as7343-rs/src/as7343.rs:439-442 | at ATIME = 255 the code as written has no result, while the exact basic count is well defined |
| Driver.As7343.constructor | src/as7343-rs/src/as7343.rs:210-212 | a new driver starts with the device's registers, an empty transfer log and its failure oracle |
| Driver.As7343.ReadBytes | src/as7343-rs/src/as7343.rs:482-488 | the read transfer, as `ReadSpec` |
| Driver.As7343.ReadByte | src/as7343-rs/src/as7343.rs:471-480 | the one-byte read, as `ReadByteSpec` |
| Driver.As7343.WriteCmd | src/as7343-rs/src/as7343.rs:490-496 | the write transfer updates the register array in place, as `WriteSpec` |
| Driver.As7343.Delay | src/as7343-rs/src/as7343.rs:371 | a pause lets the device post its next status byte into STATUS_2 |
| Driver.As7343.SetBank | src/as7343-rs/src/as7343.rs:238-245 | new state and result are `SetBankSpec` of the old state |
| Driver.As7343.PowerEnable | src/as7343-rs/src/as7343.rs:255-262 | new state and result are `PowerEnableSpec` of the old state |
| Driver.As7343.SetAutoSmux | src/as7343-rs/src/as7343.rs:264-268 | new state and result are `SetAutoSmuxSpec` of the old state |
| Driver.As7343.SetAtime | src/as7343-rs/src/as7343.rs:271-273 | new state and result are `SetAtimeSpec` of the old state |
| Driver.As7343.SetAstep | src/as7343-rs/src/as7343.rs:275-281 | new state and result are `SetAstepSpec` of the old state |
| Driver.As7343.GetAtime | src/as7343-rs/src/as7343.rs:283-287 | new state and result are `GetAtimeSpec` of the old state |
| Driver.As7343.GetAstepAsWritten | src/as7343-rs/src/as7343.rs:289-296 | new state and result are `GetAstepAsWrittenSpec` of the old state |
| Driver.As7343.GetAstep | src/as7343-rs/src/as7343.rs:289-296 | corrected (bytes paired with `+`): new state and result are `GetAstepSpec` of the old state |
| Driver.As7343.SetGainAsWritten | src/as7343-rs/src/as7343.rs:297-301 | new state and result are `SetGainAsWrittenSpec` of the old state |
| Driver.As7343.SetGain | src/as7343-rs/src/as7343.rs:297-301 | corrected (five-bit gain field): new state and result are `SetGainSpec` of the old state |
| Driver.As7343.GetGainAsWritten | src/as7343-rs/src/as7343.rs:302-310 | new state and result are `GetGainAsWrittenSpec` of the old state |
| Driver.As7343.GetGain | src/as7343-rs/src/as7343.rs:302-310 | corrected (five-bit gain field): new state and result are `GetGainSpec` of the old state |
| Driver.As7343.ClearDigitalSaturationStatus | src/as7343-rs/src/as7343.rs:321-325 | new state and result are `ClearDigitalSaturationSpec` of the old state |
| Driver.As7343.ClearAnalogSaturationStatus | src/as7343-rs/src/as7343.rs:326-330 | new state and result are `ClearAnalogSaturationSpec` of the old state |
| Driver.As7343.EnableSpectralMeasurement | src/as7343-rs/src/as7343.rs:332-339 | new state and result are `EnableMeasurementSpec` of the old state |
| Driver.As7343.IsDataReady | src/as7343-rs/src/as7343.rs:341-345 | new state and result are `IsDataReadySpec` of the old state |
| Driver.As7343.GetDigitalSaturation | src/as7343-rs/src/as7343.rs:347-351 | new state and result are `GetDigitalSaturationSpec` of the old state |
| Driver.As7343.GetAnalogSaturation | src/as7343-rs/src/as7343.rs:353-357 | new state and result are `GetAnalogSaturationSpec` of the old state |
| Driver.As7343.GetChipIdAsWritten | src/as7343-rs/src/as7343.rs:247-253 | new state and result are `GetChipIdAsWrittenSpec` of the old state |
| Driver.As7343.GetChipId | src/as7343-rs/src/as7343.rs:247-253 | corrected (bank scoped): new state and result are `GetChipIdSpec` (bank scoped) of the old state |
| Driver.As7343.EnableLedAsWritten | src/as7343-rs/src/as7343.rs:311-319 | new state and result are `EnableLedAsWrittenSpec` of the old state |
| Driver.As7343.EnableLed | src/as7343-rs/src/as7343.rs:311-319 | corrected (bank scoped, on flag 0x80): new state and result are `EnableLedSpec` (bank scoped) of the old state |
| Driver.As7343.BeginAsWritten | src/as7343-rs/src/as7343.rs:218-236 | new state and result are `BeginAsWrittenSpec` of the old state |
| Driver.As7343.Begin | src/as7343-rs/src/as7343.rs:218-236 | corrected (ID read with the bank scoped): new state and result are `BeginSpec` of the old state |
| Driver.As7343.PollUntilReady | src/as7343-rs/src/as7343.rs:360-372 | the polling loop's state and result are `PollForever` of the old state |
| Driver.As7343.WaitForDataAsWritten | src/as7343-rs/src/as7343.rs:359-396 | the loops as written reach `WaitForDataAsWrittenSpec` of the old state |
| Driver.As7343.WaitForData | src/as7343-rs/src/as7343.rs:359-396 | corrected (counter carried): the loops with the counter carried reach `WaitForDataSpec` of the old state |
| Driver.As7343.ReadChannelAsWritten | src/as7343-rs/src/as7343.rs:398-405 | new state and result are `ReadChannelAsWrittenSpec` of the old state |
| Driver.As7343.ReadChannel | src/as7343-rs/src/as7343.rs:398-405 | corrected (bytes paired with `+`): new state and result are `ReadChannelSpec` of the old state |
| Driver.As7343.ReadAllChannels | src/as7343-rs/src/as7343.rs:407-432 | new state and result are `ReadAllChannelsSpec` of the old state |
| Driver.As7343.RawToBasicCountsAsWritten | src/as7343-rs/src/as7343.rs:434-443 | new state and result are `RawToBasicCountsAsWrittenSpec` of the old state |
| Driver.As7343.RawToBasicCounts | src/as7343-rs/src/as7343.rs:434-443 | corrected (five-bit gain, ASTEP paired with `+`, wide `atime + 1`): new state and result are `RawToBasicCountsSpec` of the old state |
| Driver.As7343.RawToUwm2AsWritten | src/as7343-rs/src/as7343.rs:453-469 | new state and result are `RawToUwm2AsWrittenSpec` of the old state |
| Driver.As7343.RawToUwm2 | src/as7343-rs/src/as7343.rs:453-469 | corrected: new state and result are `RawToUwm2Spec` of the old state |

## Left out

- The I2C transport (`i2c_write_read_cmd`, `i2c_read_bytes`, `i2c_write_cmd`, as7343.rs:471-496) and the `esp_idf_hal` driver. They are replaced by the abstract register file and the failure oracle. Their debug logging is dropped.
- The bus address `addr` is stored but plays no part. The model has one device per bus.
- `destroy` (as7343.rs:214-216) only hands the bus back, and there is no bus object to hand back.
- Real time: `FreeRtos::delay_ms(1)` (as7343.rs:371, 385) is one step of the status feed. The model has poll counts only.
- Device-side behaviour is environment input, not driver logic. This covers what the chip does with the bank bit, when it raises data-ready, and saturation latching. The register file is one flat 256-byte space, so the bank bit selects nothing in it. The STATUS_2 values posted while waiting come from the `feed` sequence.
- f32 rounding (as7343.rs:441-442, 450, 468). The conversion formulas are over exact `real`.
- Polling.PollForever: the `wait_time == 0` loop can poll for ever, so it is given `fuel` polls and reports `Pending` when they run out. Nothing is said about a run longer than the fuel. The same holds for `Driver.As7343.ReadAllChannels`, `Driver.As7343.PollUntilReady` and the as-written wait.
- Driver.As7343.ReadChannel: requires `channel <= 52`. From 53 on, the u8 address sum `0x95 + 2*channel + 1` overflows, which panics in a debug build. The wrapped release-build address is not modelled.
- Calibration.GainValue: requires a gain code below 32. From 33 on, `1 << (g - 1)` overflows its 32-bit integer; code 32 sets the sign bit. Both are left unmodelled.
- Calibration.CalibrationBasicCounts: requires a positive `time_ms` and, inside `Readout.RawToUwm2Spec`, a positive `calibration_count`. f32 division by zero (infinity or NaN) is not modelled.
- Calibration.BasicCountsAsWritten: the wrapped `atime + 1` / `astep + 1` (an infinite f32 quotient, or NaN when the raw count is 0 or the quotient is multiplied by an `ee` of 0) is `None`. The debug-build overflow panic is not distinguished from it.
- A failed transfer has no effect on the device: a write that reports an error is taken not to have stored its byte, and a failed read changes nothing. An I2C write can fail after the data byte was acknowledged, which this does not cover. `Bus.RmwEffect`, `Transfers.UpdateEffect`, the setters' `...Effect` lemmas and the "LED unchanged" part of `Config.EnableLedAsWrittenLeavesBank` rest on this.
- While the driver waits for data, the device is taken to post new values into STATUS_2 only, so the data registers hold still until the bulk read. `Readout.ReadAllChannelsDecodes` states the counts both as the bytes the bulk read found and as the data registers at call time; the second form rests on this.
- The example program `examples/uv.rs`, the anemometer module and the application `main.rs` are not part of this model.

## Findings

| source | as written | input that shows it | evidently intended | confidence | as-written member | corrected member |
|---|---|---|---|---|---|---|
| src/as7343-rs/src/as7343.rs:295 | `get_astep` combines the bytes as `(hi << 8) & lo`, which is always 0 | any ASTEP, e.g. `set_astep(999)` then `get_astep()` returns 0 | `(hi << 8) + lo`, as in `read_all_channels` | high, not executed | Config.AstepAsWrittenLost | Config.AstepRoundTrip |
| src/as7343-rs/src/as7343.rs:404 | `read_channel` combines the bytes as `(hi << 8) & lo`, which is always 0 | any channel data, e.g. CH0 = 0x1234 reads 0 | `(hi << 8) + lo`, the bulk read's slot value | high, not executed | Readout.ReadChannelAsWrittenZero | Readout.ReadChannelMatchesBulk |
| src/as7343-rs/src/as7343.rs:300 | `set_gain` keeps only `gain & 7` in a 3-bit field, while gain codes go up to 12 | `set_gain(GAIN_1024X)` then `get_gain()` returns 3 (4X) | all 13 codes stored; codes above 12 rejected | medium, not executed (the field width is a hardware matter) | Config.GainRoundTripAsWritten | Config.GainRoundTrip |
| src/as7343-rs/src/as7343.rs:386 | `let count = count + 1` shadows the outer `count`, so the bound is never reached | `wait_for_data(1)` on a device that never sets data-ready polls for ever | return false once the count exceeds `wait_time` | high, not executed | Polling.TimeoutCounterexample | Polling.WaitForDataBounded |
| src/as7343-rs/src/as7343.rs:250 | `get_chip_id` returns on a failed ID read with the bank still selected | the ID read fails after `set_bank(true)` went through | the bank is deselected on every exit | medium, not executed | Config.GetChipIdAsWrittenLeavesBank | Config.GetChipIdRestoresBank |
| src/as7343-rs/src/as7343.rs:313-316 | `enable_led` returns on a failed LED write with the bank still selected | the LED write fails after `set_bank(true)` went through | the bank is deselected on every exit | medium, not executed | Config.EnableLedAsWrittenLeavesBank | Config.EnableLedRestoresBank |
| src/as7343-rs/src/as7343.rs:315 | the "on" flag 0xF0 also sets drive-strength bits 6:4 | `enable_led(true, LED_STRENGTH_4MA)` writes 0xF0, so the strength field reads 0x70 | the on flag in bit 7 only (0x80) | low, not executed (assumes bit 7 is the on flag and bits 6:0 the drive strength) | Fields.LedStrengthClobbered | Fields.LedByte |
| src/as7343-rs/src/as7343.rs:442 | `(atime + 1)` is computed in u8 and wraps to 0 at ATIME = 255 | ATIME = 255: the divisor is 0 (a panic in a debug build) | the sum in a wider type, `(atime as f32 + 1.0)` | high, not executed | Calibration.LongestIntegrationLost | Calibration.BasicCounts |
