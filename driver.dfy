/** The `As7343` driver object.  The device's 256 registers are an array
    the driver's writes update in place; the transfers it has attempted are
    a log that grows with each one; `faults` decides which attempts fail
    and `feed` holds the STATUS_2 values the device posts while the driver
    pauses.  Each method is proved to leave the driver in the state, and to
    return the value, that its specification function computes from the
    state it started in; the lemmas beside those functions say what that
    state and value are. */
module Driver {
  import opened Registers
  import opened Fields
  import opened Bus
  import opened Transfers
  import opened Config
  import opened Polling
  import opened Channels
  import opened Calibration
  import opened Readout

  class As7343 {
    /** The 7-bit bus address the driver was created with. */
    const addr: Byte
    /** Attempt number `k` (from 0) fails iff `k in faults`. */
    const faults: set<nat>
    /** The device's register file. */
    const regs: array<Byte>
    /** Every transfer attempted so far, in order. */
    var trace: seq<Transfer>
    /** The STATUS_2 values the device still has to post, one per pause. */
    var feed: seq<Byte>

    ghost predicate Valid()
    {
      regs.Length == 256
    }

    /** The driver and device as a value. */
    ghost function State(): Bus
      requires Valid()
      reads this, regs
    {
      Bus(regs[..], trace, feed)
    }

    /** `As7343::new(i2c, addr)`, on a device whose registers hold `registers`. */
    constructor (registers: RegFile, faults: set<nat>, feed: seq<Byte>, addr: Byte)
      ensures Valid() && fresh(regs)
      ensures State() == Bus(registers, [], feed)
      ensures this.faults == faults && this.addr == addr
    {
      this.addr := addr;
      this.faults := faults;
      this.feed := feed;
      this.trace := [];
      this.regs := new Byte[256](i requires 0 <= i < 256 => registers[i]);
      new;
      assert regs[..] == registers;
    }

    // ---- the three transfers

    /** `i2c_read_bytes(a, buf)` with a buffer of `len` bytes (and
        `i2c_write_read_cmd`, which performs the same transfer). */
    method ReadBytes(a: Addr, len: nat) returns (r: Result<seq<Byte>>)
      requires Valid() && a + len <= 256
      modifies this
      ensures Valid()
      ensures Outcome(State(), r) == ReadSpec(old(State()), faults, a, len)
    {
      var attempt := |trace|;
      trace := trace + [Read(a, len)];
      if attempt in faults {
        return Err(BusError);
      }
      return Ok(regs[a..a + len]);
    }

    /** A read into a one-byte buffer, returning its byte. */
    method ReadByte(a: Addr) returns (r: Result<Byte>)
      requires Valid()
      modifies this
      ensures Valid()
      ensures Outcome(State(), r) == ReadByteSpec(old(State()), faults, a)
    {
      var data :- ReadBytes(a, 1);
      return Ok(data[0]);
    }

    /** `i2c_write_cmd(a, v)`. */
    method WriteCmd(a: Addr, v: Byte) returns (r: Result<()>)
      requires Valid()
      modifies this, regs
      ensures Valid()
      ensures Outcome(State(), r) == WriteSpec(old(State()), faults, a, v)
    {
      var attempt := |trace|;
      trace := trace + [Write(a, v)];
      if attempt in faults {
        return Err(BusError);
      }
      regs[a] := v;
      return Ok(());
    }

    /** `FreeRtos::delay_ms(1)`: the device may post the next status byte. */
    method Delay()
      requires Valid()
      modifies this, regs
      ensures Valid()
      ensures State() == Tick(old(State()))
    {
      if feed != [] {
        regs[REG_STATUS_2] := feed[0];
        feed := feed[1..];
      }
    }

    // ---- read-modify-write setters

    method SetBank(low: bool) returns (r: Result<()>)
      requires Valid()
      modifies this, regs
      ensures Valid()
      ensures Outcome(State(), r) == SetBankSpec(old(State()), faults, low)
    {
      var reg :- ReadByte(REG_CFG0);
      r := WriteCmd(REG_CFG0, WithBank(reg, low));
    }

    method PowerEnable(power: bool) returns (r: Result<()>)
      requires Valid()
      modifies this, regs
      ensures Valid()
      ensures Outcome(State(), r) == PowerEnableSpec(old(State()), faults, power)
    {
      var reg :- ReadByte(REG_ENABLE);
      r := WriteCmd(REG_ENABLE, WithPower(reg, power));
    }

    method SetAutoSmux(smux: Byte) returns (r: Result<()>)
      requires Valid()
      modifies this, regs
      ensures Valid()
      ensures Outcome(State(), r) == SetAutoSmuxSpec(old(State()), faults, smux)
    {
      var reg :- ReadByte(REG_CFG20);
      r := WriteCmd(REG_CFG20, WithSmux(reg, smux));
    }

    method SetAtime(atime: Byte) returns (r: Result<()>)
      requires Valid()
      modifies this, regs
      ensures Valid()
      ensures Outcome(State(), r) == SetAtimeSpec(old(State()), faults, atime)
    {
      r := WriteCmd(REG_ATIME, atime);
    }

    method SetAstep(step: bv16) returns (r: Result<()>)
      requires Valid()
      modifies this, regs
      ensures Valid()
      ensures Outcome(State(), r) == SetAstepSpec(old(State()), faults, step)
    {
      var ok :- WriteCmd(REG_ASTEP_LOW, LowByte(step));
      r := WriteCmd(REG_ASTEP_HIGH, HighByte(step));
    }

    method GetAtime() returns (r: Result<Byte>)
      requires Valid()
      modifies this
      ensures Valid()
      ensures Outcome(State(), r) == GetAtimeSpec(old(State()), faults)
    {
      var reg :- ReadByte(REG_ATIME);
      return Ok(reg);
    }

    /** `get_astep()` as written. */
    method GetAstepAsWritten() returns (r: Result<bv16>)
      requires Valid()
      modifies this
      ensures Valid()
      ensures Outcome(State(), r) == GetAstepAsWrittenSpec(old(State()), faults)
    {
      var low :- ReadByte(REG_ASTEP_LOW);
      var high :- ReadByte(REG_ASTEP_HIGH);
      return Ok(CombineAsWritten(high, low));
    }

    method GetAstep() returns (r: Result<bv16>)
      requires Valid()
      modifies this
      ensures Valid()
      ensures Outcome(State(), r) == GetAstepSpec(old(State()), faults)
    {
      var low :- ReadByte(REG_ASTEP_LOW);
      var high :- ReadByte(REG_ASTEP_HIGH);
      return Ok(Combine(high, low));
    }

    /** `set_gain(gain)` as written. */
    method SetGainAsWritten(gain: Byte) returns (r: Result<()>)
      requires Valid()
      modifies this, regs
      ensures Valid()
      ensures Outcome(State(), r) == SetGainAsWrittenSpec(old(State()), faults, gain)
    {
      var reg :- ReadByte(REG_CFG1);
      r := WriteCmd(REG_CFG1, WithGainAsWritten(reg, gain));
    }

    method SetGain(gain: Byte) returns (r: Result<()>)
      requires Valid()
      modifies this, regs
      ensures Valid()
      ensures Outcome(State(), r) == SetGainSpec(old(State()), faults, gain)
    {
      if gain > GAIN_2048X {
        return Err(InvalidGain);
      }
      var reg :- ReadByte(REG_CFG1);
      r := WriteCmd(REG_CFG1, WithGain(reg, gain));
    }

    /** `get_gain()` as written. */
    method GetGainAsWritten() returns (r: Result<Byte>)
      requires Valid()
      modifies this
      ensures Valid()
      ensures Outcome(State(), r) == GetGainAsWrittenSpec(old(State()), faults)
    {
      var reg :- ReadByte(REG_CFG1);
      return Ok(GainFieldAsWritten(reg));
    }

    method GetGain() returns (r: Result<Byte>)
      requires Valid()
      modifies this
      ensures Valid()
      ensures Outcome(State(), r) == GetGainSpec(old(State()), faults)
    {
      var reg :- ReadByte(REG_CFG1);
      return Ok(GainField(reg));
    }

    method ClearDigitalSaturationStatus() returns (r: Result<()>)
      requires Valid()
      modifies this, regs
      ensures Valid()
      ensures Outcome(State(), r) == ClearDigitalSaturationSpec(old(State()), faults)
    {
      var reg :- ReadByte(REG_STATUS_2);
      r := WriteCmd(REG_STATUS_2, ClearDigitalSaturation(reg));
    }

    method ClearAnalogSaturationStatus() returns (r: Result<()>)
      requires Valid()
      modifies this, regs
      ensures Valid()
      ensures Outcome(State(), r) == ClearAnalogSaturationSpec(old(State()), faults)
    {
      var reg :- ReadByte(REG_STATUS_2);
      r := WriteCmd(REG_STATUS_2, ClearAnalogSaturation(reg));
    }

    method EnableSpectralMeasurement(enabled: bool) returns (r: Result<()>)
      requires Valid()
      modifies this, regs
      ensures Valid()
      ensures Outcome(State(), r) == EnableMeasurementSpec(old(State()), faults, enabled)
    {
      var reg :- ReadByte(REG_ENABLE);
      r := WriteCmd(REG_ENABLE, WithMeasurement(reg, enabled));
    }

    // ---- status getters

    method IsDataReady() returns (r: Result<bool>)
      requires Valid()
      modifies this
      ensures Valid()
      ensures Outcome(State(), r) == IsDataReadySpec(old(State()), faults)
    {
      var reg :- ReadByte(REG_STATUS_2);
      return Ok(DataReady(reg));
    }

    method GetDigitalSaturation() returns (r: Result<bool>)
      requires Valid()
      modifies this
      ensures Valid()
      ensures Outcome(State(), r) == GetDigitalSaturationSpec(old(State()), faults)
    {
      var reg :- ReadByte(REG_STATUS_2);
      return Ok(DigitalSaturation(reg));
    }

    method GetAnalogSaturation() returns (r: Result<bool>)
      requires Valid()
      modifies this
      ensures Valid()
      ensures Outcome(State(), r) == GetAnalogSaturationSpec(old(State()), faults)
    {
      var reg :- ReadByte(REG_STATUS_2);
      return Ok(AnalogSaturation(reg));
    }

    // ---- bank-switched accesses and start-up

    /** `get_chip_id()` as written. */
    method GetChipIdAsWritten() returns (r: Result<Byte>)
      requires Valid()
      modifies this, regs
      ensures Valid()
      ensures Outcome(State(), r) == GetChipIdAsWrittenSpec(old(State()), faults)
    {
      var selected :- SetBank(true);
      var id :- ReadByte(REG_ID);
      var deselected :- SetBank(false);
      return Ok(id);
    }

    /** `get_chip_id()` with the bank deselected on every path once selected. */
    method GetChipId() returns (r: Result<Byte>)
      requires Valid()
      modifies this, regs
      ensures Valid()
      ensures Outcome(State(), r) == GetChipIdSpec(old(State()), faults)
    {
      var selected :- SetBank(true);
      var id := ReadByte(REG_ID);
      var deselected := SetBank(false);
      if id.Err? {
        return Err(id.error);
      }
      if deselected.Err? {
        return Err(deselected.error);
      }
      return Ok(id.value);
    }

    /** `enable_led(enabled, strength)` as written. */
    method EnableLedAsWritten(enabled: bool, strength: Byte) returns (r: Result<()>)
      requires Valid()
      modifies this, regs
      ensures Valid()
      ensures Outcome(State(), r) == EnableLedAsWrittenSpec(old(State()), faults, enabled, strength)
    {
      var selected :- SetBank(true);
      var written :- WriteCmd(REG_LED, LedByteAsWritten(enabled, strength));
      var deselected :- SetBank(false);
      return Ok(());
    }

    /** `enable_led(enabled, strength)` with the on flag in bit 7 and the bank scoped. */
    method EnableLed(enabled: bool, strength: Byte) returns (r: Result<()>)
      requires Valid()
      modifies this, regs
      ensures Valid()
      ensures Outcome(State(), r) == EnableLedSpec(old(State()), faults, enabled, strength)
    {
      var selected :- SetBank(true);
      var written := WriteCmd(REG_LED, LedByte(enabled, strength));
      var deselected := SetBank(false);
      if written.Err? {
        return Err(written.error);
      }
      if deselected.Err? {
        return Err(deselected.error);
      }
      return Ok(());
    }

    /** `begin()` as written. */
    method BeginAsWritten() returns (r: Result<bool>)
      requires Valid()
      modifies this, regs
      ensures Valid()
      ensures Outcome(State(), r) == BeginAsWrittenSpec(old(State()), faults)
    {
      var id :- GetChipIdAsWritten();
      if id == CHIP_ID {
        var powered :- PowerEnable(true);
        var smux :- SetAutoSmux(AUTO_SMUX_18CHAN);
        return Ok(true);
      }
      return Ok(false);
    }

    /** `begin()` with the chip ID read with the bank scoped. */
    method Begin() returns (r: Result<bool>)
      requires Valid()
      modifies this, regs
      ensures Valid()
      ensures Outcome(State(), r) == BeginSpec(old(State()), faults)
    {
      var id :- GetChipId();
      if id == CHIP_ID {
        var powered :- PowerEnable(true);
        var smux :- SetAutoSmux(AUTO_SMUX_18CHAN);
        return Ok(true);
      }
      return Ok(false);
    }

    // ---- waiting for data

    /** The `wait_time == 0` loop, for at most `fuel` polls. */
    method PollUntilReady(fuel: nat) returns (r: Wait<bool>)
      requires Valid()
      modifies this, regs
      ensures Valid()
      ensures Outcome(State(), r) == PollForever(old(State()), faults, fuel)
    {
      var polls := 0;
      while polls < fuel
        invariant Valid() && polls <= fuel
        invariant PollForever(State(), faults, fuel - polls) == PollForever(old(State()), faults, fuel)
      {
        var ready := IsDataReady();
        if ready.Err? {
          return Done(Err(ready.error));
        }
        if ready.value {
          return Done(Ok(true));
        }
        Delay();
        polls := polls + 1;
      }
      return Pending;
    }

    /** `wait_for_data(wait_time)` as written: the count compared with
        `wait_time` is a fresh binding of the outer count plus one. */
    method WaitForDataAsWritten(waitTime: nat, fuel: nat) returns (r: Wait<bool>)
      requires Valid()
      modifies this, regs
      ensures Valid()
      ensures Outcome(State(), r) == WaitForDataAsWrittenSpec(old(State()), faults, waitTime, fuel)
    {
      if waitTime == 0 {
        r := PollUntilReady(fuel);
        return;
      }
      var count := 0;
      var polls := 0;
      while polls < fuel
        invariant Valid() && polls <= fuel
        invariant PollShadowed(State(), faults, waitTime, fuel - polls)
               == PollShadowed(old(State()), faults, waitTime, fuel)
      {
        var ready := IsDataReady();
        if ready.Err? {
          return Done(Err(ready.error));
        }
        if ready.value {
          return Done(Ok(true));
        }
        Delay();
        var countInLoop := count + 1;
        if countInLoop > waitTime {
          return Done(Ok(false));
        }
        polls := polls + 1;
      }
      return Pending;
    }

    /** `wait_for_data(wait_time)` with the count carried round the loop. */
    method WaitForData(waitTime: nat, fuel: nat) returns (r: Wait<bool>)
      requires Valid()
      modifies this, regs
      ensures Valid()
      ensures Outcome(State(), r) == WaitForDataSpec(old(State()), faults, waitTime, fuel)
    {
      if waitTime == 0 {
        r := PollUntilReady(fuel);
        return;
      }
      var count := 0;
      while true
        invariant Valid() && count <= waitTime
        invariant PollBounded(State(), faults, waitTime, count) == PollBounded(old(State()), faults, waitTime, 0)
        decreases waitTime - count
      {
        var ready := IsDataReady();
        if ready.Err? {
          return Done(Err(ready.error));
        }
        if ready.value {
          return Done(Ok(true));
        }
        Delay();
        count := count + 1;
        if count > waitTime {
          return Done(Ok(false));
        }
      }
    }

    // ---- reading measurements

    /** `read_channel(channel)` as written. */
    method ReadChannelAsWritten(channel: nat) returns (r: Result<bv16>)
      requires Valid() && channel <= 52
      modifies this
      ensures Valid()
      ensures Outcome(State(), r) == ReadChannelAsWrittenSpec(old(State()), faults, channel)
    {
      var low :- ReadByte(REG_CH0_DATA_L + 2 * channel);
      var high :- ReadByte(REG_CH0_DATA_L + 2 * channel + 1);
      return Ok(CombineAsWritten(high, low));
    }

    method ReadChannel(channel: nat) returns (r: Result<bv16>)
      requires Valid() && channel <= 52
      modifies this
      ensures Valid()
      ensures Outcome(State(), r) == ReadChannelSpec(old(State()), faults, channel)
    {
      var low :- ReadByte(REG_CH0_DATA_L + 2 * channel);
      var high :- ReadByte(REG_CH0_DATA_L + 2 * channel + 1);
      return Ok(Combine(high, low));
    }

    /** `read_all_channels()`, its unbounded wait given `fuel` polls. */
    method ReadAllChannels(fuel: nat) returns (r: Wait<seq<bv16>>)
      requires Valid()
      modifies this, regs
      ensures Valid()
      ensures Outcome(State(), r) == ReadAllChannelsSpec(old(State()), faults, fuel)
    {
      var enabled := EnableSpectralMeasurement(true);
      if enabled.Err? {
        return Done(Err(enabled.error));
      }
      var waited := WaitForData(0, fuel);
      match waited
      case Pending =>
        return Pending;
      case Done(Err(e)) =>
        return Done(Err(e));
      case Done(Ok(_)) =>
        var data := ReadBytes(REG_CH0_DATA_L, DATA_BYTES);
        if data.Err? {
          return Done(Err(data.error));
        }
        return Done(Ok(DecodeChannels(data.value)));
    }

    /** `raw_to_basic_counts(raw)` as written. */
    method RawToBasicCountsAsWritten(raw: U16) returns (r: Result<Option<real>>)
      requires Valid()
      modifies this
      ensures Valid()
      ensures Outcome(State(), r) == RawToBasicCountsAsWrittenSpec(old(State()), faults, raw)
    {
      var gain :- GetGainAsWritten();
      var atime :- GetAtime();
      var astep :- GetAstepAsWritten();
      return Ok(BasicCountsAsWritten(raw, gain as int, atime as int, astep as int));
    }

    method RawToBasicCounts(raw: U16) returns (r: Result<real>)
      requires Valid()
      modifies this
      ensures Valid()
      ensures Outcome(State(), r) == RawToBasicCountsSpec(old(State()), faults, raw)
    {
      var gain :- GetGain();
      var atime :- GetAtime();
      var astep :- GetAstep();
      return Ok(BasicCounts(raw, gain as int, atime as int, astep as int));
    }

    /** `raw_to_uwm2(...)` as written. */
    method RawToUwm2AsWritten(raw: U16, count: U16, timeMs: real, calGain: nat, ee: real) returns (r: Result<Option<real>>)
      requires Valid() && count > 0 && timeMs > 0.0 && calGain < 32
      modifies this
      ensures Valid()
      ensures Outcome(State(), r) == RawToUwm2AsWrittenSpec(old(State()), faults, raw, count, timeMs, calGain, ee)
    {
      var calibration := CalibrationBasicCounts(count, timeMs, calGain);
      var reading := RawToBasicCountsAsWritten(raw);
      r := ScaledOption(reading, calibration, ee);
    }

    method RawToUwm2(raw: U16, count: U16, timeMs: real, calGain: nat, ee: real) returns (r: Result<real>)
      requires Valid() && count > 0 && timeMs > 0.0 && calGain < 32
      modifies this
      ensures Valid()
      ensures Outcome(State(), r) == RawToUwm2Spec(old(State()), faults, raw, count, timeMs, calGain, ee)
    {
      var calibration := CalibrationBasicCounts(count, timeMs, calGain);
      var reading := RawToBasicCounts(raw);
      r := ScaledResult(reading, calibration, ee);
    }
  }
}
