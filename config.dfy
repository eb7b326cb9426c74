/** The configuration accessors of `As7343`: the read-modify-write setters,
    the getters, the bank-switched chip-ID read and LED write, and the
    start-up sequence `begin`.  Each specification is a function of the bus
    state and the failure oracle; the lemmas state what each one does to
    the registers, what it returns and how it reports a failed transfer. */
module Config {
  import opened Registers
  import opened Fields
  import opened Bus
  import opened Transfers

  /** `o` is a read-modify-write of `a` writing `v`: it succeeds iff both of
      its transfers go through; then `a` holds `v` and no other register
      changed, and otherwise nothing changed. */
  predicate Rewrote(b: Bus, f: set<nat>, o: Outcome<Result<()>>, a: Addr, v: Byte)
  {
    && (o.result.Ok? <==> NoFaults(f, |b.trace|, 2))
    && o.bus.regs == (if o.result.Ok? then b.regs[a := v] else b.regs)
    && o.bus.trace == b.trace + Attempts(Rmw(a, v), o.result.Ok?, |b.trace| in f)
    && ReportsFaults(b, f, o)
  }

  /** The transfers of a two-step script that were attempted. */
  function Attempts(s: seq<Transfer>, ok: bool, firstFails: bool): seq<Transfer>
    requires |s| == 2
  {
    if ok then s else if firstFails then s[..1] else s
  }

  lemma UpdateRewrote(b: Bus, f: set<nat>, a: Addr, g: Byte -> Byte)
    ensures Rewrote(b, f, UpdateSpec(b, f, a, g), a, g(b.regs[a]))
  {
    UpdateEffect(b, f, a, g);
    var v := g(b.regs[a]);
    RmwEffect(b, f, a, v);
    ExecPrefix(b, f, Rmw(a, v));
    assert Rmw(a, v)[..1] == [Read(a, 1)];
    assert Rmw(a, v)[..2] == Rmw(a, v);
  }

  // ---- read-modify-write setters

  /** `set_bank(low)`. */
  function SetBankSpec(b: Bus, f: set<nat>, low: bool): Outcome<Result<()>>
  {
    UpdateSpec(b, f, REG_CFG0, c => WithBank(c, low))
  }

  /** `set_bank` sets CFG0 bit 4 iff `low`, and keeps every other bit of
      CFG0 and every other register. */
  lemma SetBankEffect(b: Bus, f: set<nat>, low: bool)
    ensures var o := SetBankSpec(b, f, low);
            && Rewrote(b, f, o, REG_CFG0, WithBank(b.regs[REG_CFG0], low))
            && (o.result.Ok? ==> (BankSelected(o.bus.regs[REG_CFG0]) == low
                               && o.bus.regs[REG_CFG0] & !0x10 == b.regs[REG_CFG0] & !0x10))
  {
    UpdateRewrote(b, f, REG_CFG0, c => WithBank(c, low));
  }

  /** `power_enable(power)`. */
  function PowerEnableSpec(b: Bus, f: set<nat>, power: bool): Outcome<Result<()>>
  {
    UpdateSpec(b, f, REG_ENABLE, c => WithPower(c, power))
  }

  /** `power_enable` sets ENABLE bit 0 iff `power` and keeps everything else. */
  lemma PowerEnableEffect(b: Bus, f: set<nat>, power: bool)
    ensures var o := PowerEnableSpec(b, f, power);
            && Rewrote(b, f, o, REG_ENABLE, WithPower(b.regs[REG_ENABLE], power))
            && (o.result.Ok? ==> (PoweredOn(o.bus.regs[REG_ENABLE]) == power
                               && o.bus.regs[REG_ENABLE] & !0x01 == b.regs[REG_ENABLE] & !0x01))
  {
    UpdateRewrote(b, f, REG_ENABLE, c => WithPower(c, power));
  }

  /** `enable_spectral_measurement(enabled)`. */
  function EnableMeasurementSpec(b: Bus, f: set<nat>, enabled: bool): Outcome<Result<()>>
  {
    UpdateSpec(b, f, REG_ENABLE, c => WithMeasurement(c, enabled))
  }

  /** `enable_spectral_measurement` sets ENABLE bit 1 iff `enabled` and
      keeps everything else. */
  lemma EnableMeasurementEffect(b: Bus, f: set<nat>, enabled: bool)
    ensures var o := EnableMeasurementSpec(b, f, enabled);
            && Rewrote(b, f, o, REG_ENABLE, WithMeasurement(b.regs[REG_ENABLE], enabled))
            && (o.result.Ok? ==> (MeasurementEnabled(o.bus.regs[REG_ENABLE]) == enabled
                               && o.bus.regs[REG_ENABLE] & !0x02 == b.regs[REG_ENABLE] & !0x02))
  {
    UpdateRewrote(b, f, REG_ENABLE, c => WithMeasurement(c, enabled));
  }

  /** `set_auto_smux(smux)`. */
  function SetAutoSmuxSpec(b: Bus, f: set<nat>, smux: Byte): Outcome<Result<()>>
  {
    UpdateSpec(b, f, REG_CFG20, c => WithSmux(c, smux))
  }

  /** `set_auto_smux` puts the low two bits of `smux` in CFG20 bits 6:5,
      clears bit 4 and keeps bits 7 and 3:0 and every other register. */
  lemma SetAutoSmuxEffect(b: Bus, f: set<nat>, smux: Byte)
    ensures var o := SetAutoSmuxSpec(b, f, smux);
            && Rewrote(b, f, o, REG_CFG20, WithSmux(b.regs[REG_CFG20], smux))
            && (o.result.Ok? ==> (SmuxMode(o.bus.regs[REG_CFG20]) == smux & 0x03
                               && o.bus.regs[REG_CFG20] & 0x8F == b.regs[REG_CFG20] & 0x8F))
  {
    UpdateRewrote(b, f, REG_CFG20, c => WithSmux(c, smux));
  }

  /** `clear_digital_saturation_status()`. */
  function ClearDigitalSaturationSpec(b: Bus, f: set<nat>): Outcome<Result<()>>
  {
    UpdateSpec(b, f, REG_STATUS_2, ClearDigitalSaturation)
  }

  /** Clearing the digital saturation flag clears STATUS_2 bit 4 only. */
  lemma ClearDigitalSaturationEffect(b: Bus, f: set<nat>)
    ensures var o := ClearDigitalSaturationSpec(b, f);
            && Rewrote(b, f, o, REG_STATUS_2, ClearDigitalSaturation(b.regs[REG_STATUS_2]))
            && (o.result.Ok? ==> (!DigitalSaturation(o.bus.regs[REG_STATUS_2])
                               && o.bus.regs[REG_STATUS_2] & !0x10 == b.regs[REG_STATUS_2] & !0x10))
  {
    UpdateRewrote(b, f, REG_STATUS_2, ClearDigitalSaturation);
  }

  /** `clear_analog_saturation_status()`. */
  function ClearAnalogSaturationSpec(b: Bus, f: set<nat>): Outcome<Result<()>>
  {
    UpdateSpec(b, f, REG_STATUS_2, ClearAnalogSaturation)
  }

  /** Clearing the analog saturation flag clears STATUS_2 bit 3 only. */
  lemma ClearAnalogSaturationEffect(b: Bus, f: set<nat>)
    ensures var o := ClearAnalogSaturationSpec(b, f);
            && Rewrote(b, f, o, REG_STATUS_2, ClearAnalogSaturation(b.regs[REG_STATUS_2]))
            && (o.result.Ok? ==> (!AnalogSaturation(o.bus.regs[REG_STATUS_2])
                               && o.bus.regs[REG_STATUS_2] & !0x08 == b.regs[REG_STATUS_2] & !0x08))
  {
    UpdateRewrote(b, f, REG_STATUS_2, ClearAnalogSaturation);
  }

  // ---- status getters

  /** `is_data_ready()`. */
  function IsDataReadySpec(b: Bus, f: set<nat>): Outcome<Result<bool>>
  {
    ReadFieldSpec(b, f, REG_STATUS_2, DataReady)
  }

  /** `get_digital_saturation()`. */
  function GetDigitalSaturationSpec(b: Bus, f: set<nat>): Outcome<Result<bool>>
  {
    ReadFieldSpec(b, f, REG_STATUS_2, DigitalSaturation)
  }

  /** `get_analog_saturation()`. */
  function GetAnalogSaturationSpec(b: Bus, f: set<nat>): Outcome<Result<bool>>
  {
    ReadFieldSpec(b, f, REG_STATUS_2, AnalogSaturation)
  }

  /** After a successful clear, the flag cleared reads back as false and the
      other saturation flag and data-ready read back as they were. */
  lemma ClearThenGetSaturation(b: Bus, f: set<nat>)
    ensures var o := ClearDigitalSaturationSpec(b, f);
            var n := |o.bus.trace|;
            o.result.Ok? && n !in f ==>
              && GetDigitalSaturationSpec(o.bus, f).result == Ok(false)
              && GetAnalogSaturationSpec(o.bus, f).result == Ok(AnalogSaturation(b.regs[REG_STATUS_2]))
              && IsDataReadySpec(o.bus, f).result == Ok(DataReady(b.regs[REG_STATUS_2]))
    ensures var o := ClearAnalogSaturationSpec(b, f);
            var n := |o.bus.trace|;
            o.result.Ok? && n !in f ==>
              && GetAnalogSaturationSpec(o.bus, f).result == Ok(false)
              && GetDigitalSaturationSpec(o.bus, f).result == Ok(DigitalSaturation(b.regs[REG_STATUS_2]))
              && IsDataReadySpec(o.bus, f).result == Ok(DataReady(b.regs[REG_STATUS_2]))
  {
    ClearDigitalSaturationEffect(b, f);
    ClearAnalogSaturationEffect(b, f);
    var o1 := ClearDigitalSaturationSpec(b, f);
    var o2 := ClearAnalogSaturationSpec(b, f);
    ReadFieldEffect(o1.bus, f, REG_STATUS_2, DigitalSaturation);
    ReadFieldEffect(o1.bus, f, REG_STATUS_2, AnalogSaturation);
    ReadFieldEffect(o1.bus, f, REG_STATUS_2, DataReady);
    ReadFieldEffect(o2.bus, f, REG_STATUS_2, DigitalSaturation);
    ReadFieldEffect(o2.bus, f, REG_STATUS_2, AnalogSaturation);
    ReadFieldEffect(o2.bus, f, REG_STATUS_2, DataReady);
  }

  // ---- integration time

  /** `set_atime(atime)`: a single write. */
  function SetAtimeSpec(b: Bus, f: set<nat>, atime: Byte): Outcome<Result<()>>
  {
    WriteSpec(b, f, REG_ATIME, atime)
  }

  /** `get_atime()`. */
  function GetAtimeSpec(b: Bus, f: set<nat>): Outcome<Result<Byte>>
  {
    ReadFieldSpec(b, f, REG_ATIME, c => c)
  }

  /** ATIME reads back as set. */
  lemma AtimeRoundTrip(b: Bus, f: set<nat>, atime: Byte)
    ensures var o := SetAtimeSpec(b, f, atime);
            && (o.result.Ok? <==> |b.trace| !in f)
            && (o.result.Ok? && |o.bus.trace| !in f ==> GetAtimeSpec(o.bus, f).result == Ok(atime))
  {
    ReadFieldEffect(SetAtimeSpec(b, f, atime).bus, f, REG_ATIME, c => c);
  }

  /** `set_astep(step)`: the low byte to ASTEP_L, then the high byte to ASTEP_H. */
  function SetAstepSpec(b: Bus, f: set<nat>, step: bv16): Outcome<Result<()>>
  {
    var o := WriteSpec(b, f, REG_ASTEP_LOW, LowByte(step));
    if o.result.Err? then Propagate(o) else WriteSpec(o.bus, f, REG_ASTEP_HIGH, HighByte(step))
  }

  /** `get_astep()` as written: the two bytes are combined with `&`. */
  function GetAstepAsWrittenSpec(b: Bus, f: set<nat>): Outcome<Result<bv16>>
  {
    var o1 := ReadByteSpec(b, f, REG_ASTEP_LOW);
    if o1.result.Err? then Propagate(o1) else
    var o2 := ReadByteSpec(o1.bus, f, REG_ASTEP_HIGH);
    if o2.result.Err? then Propagate(o2) else
    Outcome(o2.bus, Ok(CombineAsWritten(o2.result.value, o1.result.value)))
  }

  /** `get_astep()` with the bytes paired as `read_all_channels` pairs them. */
  function GetAstepSpec(b: Bus, f: set<nat>): Outcome<Result<bv16>>
  {
    var o1 := ReadByteSpec(b, f, REG_ASTEP_LOW);
    if o1.result.Err? then Propagate(o1) else
    var o2 := ReadByteSpec(o1.bus, f, REG_ASTEP_HIGH);
    if o2.result.Err? then Propagate(o2) else
    Outcome(o2.bus, Ok(Combine(o2.result.value, o1.result.value)))
  }

  /** `get_astep` reads the two ASTEP registers, changes none, and returns
      the 16-bit value they hold, low byte first. */
  lemma GetAstepEffect(b: Bus, f: set<nat>)
    ensures var o := GetAstepSpec(b, f);
            && o.bus.regs == b.regs
            && (o.result.Ok? <==> NoFaults(f, |b.trace|, 2))
            && (o.result.Ok? ==> o.result.value as int
                                 == b.regs[REG_ASTEP_LOW] as int + 256 * b.regs[REG_ASTEP_HIGH] as int)
            && ReportsFaults(b, f, o)
  {
    var o1 := ReadByteSpec(b, f, REG_ASTEP_LOW);
    var o := GetAstepSpec(b, f);
    if o1.result.Ok? {
      var o2 := ReadByteSpec(o1.bus, f, REG_ASTEP_HIGH);
      ReportsFaultsThen(b, f, o1, o2, o.result);
      CombineValue(b.regs[REG_ASTEP_HIGH], b.regs[REG_ASTEP_LOW]);
    }
  }

  /** `set_astep` writes `step & 0xFF` and then `step >> 8`, so the two
      registers together hold `step`, and `get_astep` gives it back. */
  lemma AstepRoundTrip(b: Bus, f: set<nat>, step: bv16)
    ensures var o := SetAstepSpec(b, f, step);
            && (o.result.Ok? <==> NoFaults(f, |b.trace|, 2))
            && (o.result.Ok? ==>
                  && o.bus.trace == b.trace + [Write(REG_ASTEP_LOW, LowByte(step)), Write(REG_ASTEP_HIGH, HighByte(step))]
                  && o.bus.regs == b.regs[REG_ASTEP_LOW := LowByte(step)][REG_ASTEP_HIGH := HighByte(step)]
                  && HighByte(step) as int * 256 + LowByte(step) as int == step as int)
            && (o.result.Ok? && NoFaults(f, |o.bus.trace|, 2) ==> GetAstepSpec(o.bus, f).result == Ok(step))
  {
    SplitCombine(step);
    var o := SetAstepSpec(b, f, step);
    if o.result.Ok? && NoFaults(f, |o.bus.trace|, 2) {
      var n := |o.bus.trace|;
      assert n !in f && n + 1 !in f;
      var r1 := ReadByteSpec(o.bus, f, REG_ASTEP_LOW);
      assert r1.result == Ok(LowByte(step));
      var r2 := ReadByteSpec(r1.bus, f, REG_ASTEP_HIGH);
      assert r2.result == Ok(HighByte(step));
      assert GetAstepSpec(o.bus, f).result == Ok(Combine(HighByte(step), LowByte(step)));
    }
  }

  /** The value `get_astep` returns as written is 0 whatever ASTEP holds,
      so any non-zero step set by `set_astep` is lost on the way back. */
  lemma AstepAsWrittenLost(b: Bus, f: set<nat>, step: bv16)
    ensures var g := GetAstepAsWrittenSpec(b, f);
            g.result.Ok? ==> g.result.value == 0
    ensures var o := SetAstepSpec(b, f, step);
            step != 0 && o.result.Ok? && NoFaults(f, |o.bus.trace|, 2) ==>
              && GetAstepSpec(o.bus, f).result == Ok(step)
              && GetAstepAsWrittenSpec(o.bus, f).result == Ok(0)
  {
    AstepRoundTrip(b, f, step);
  }

  /** `get_astep` as written reads the two ASTEP registers, changes none,
      fails iff one of its reads fails, and otherwise returns 0. */
  lemma GetAstepAsWrittenEffect(b: Bus, f: set<nat>)
    ensures var o := GetAstepAsWrittenSpec(b, f);
            && o.bus.regs == b.regs
            && (o.result.Ok? <==> NoFaults(f, |b.trace|, 2))
            && (o.result.Ok? ==> o.result.value == 0)
            && ReportsFaults(b, f, o)
  {
    var o1 := ReadByteSpec(b, f, REG_ASTEP_LOW);
    var o := GetAstepAsWrittenSpec(b, f);
    if o1.result.Ok? {
      var o2 := ReadByteSpec(o1.bus, f, REG_ASTEP_HIGH);
      ReportsFaultsThen(b, f, o1, o2, o.result);
    }
  }

  // ---- gain

  /** `set_gain(gain)` as written: a three-bit field. */
  function SetGainAsWrittenSpec(b: Bus, f: set<nat>, gain: Byte): Outcome<Result<()>>
  {
    UpdateSpec(b, f, REG_CFG1, c => WithGainAsWritten(c, gain))
  }

  /** `get_gain()` as written: the low three bits. */
  function GetGainAsWrittenSpec(b: Bus, f: set<nat>): Outcome<Result<Byte>>
  {
    ReadFieldSpec(b, f, REG_CFG1, GainFieldAsWritten)
  }

  /** `set_gain(gain)` on the five-bit gain field, refusing a code above 2048X
      without touching the bus. */
  function SetGainSpec(b: Bus, f: set<nat>, gain: Byte): Outcome<Result<()>>
  {
    if gain > GAIN_2048X then Outcome(b, Err(InvalidGain))
    else UpdateSpec(b, f, REG_CFG1, c => WithGain(c, gain))
  }

  /** `get_gain()` on the five-bit gain field. */
  function GetGainSpec(b: Bus, f: set<nat>): Outcome<Result<Byte>>
  {
    ReadFieldSpec(b, f, REG_CFG1, GainField)
  }

  /** As written, the gain read back after `set_gain(g)` is `g & 7`: equal
      to `g` for the codes 0.5X to 64X, and wrong for 128X to 2048X. */
  lemma GainRoundTripAsWritten(b: Bus, f: set<nat>, gain: Byte)
    ensures var o := SetGainAsWrittenSpec(b, f, gain);
            && Rewrote(b, f, o, REG_CFG1, WithGainAsWritten(b.regs[REG_CFG1], gain))
            && (o.result.Ok? && |o.bus.trace| !in f ==>
                  && GetGainAsWrittenSpec(o.bus, f).result == Ok(gain & 0x07)
                  && (GetGainAsWrittenSpec(o.bus, f).result == Ok(gain) <==> gain <= GAIN_64X))
  {
    UpdateRewrote(b, f, REG_CFG1, c => WithGainAsWritten(c, gain));
    var o := SetGainAsWrittenSpec(b, f, gain);
    ReadFieldEffect(o.bus, f, REG_CFG1, GainFieldAsWritten);
    assert gain & 0x07 == gain <==> gain <= 7;
  }

  /** With the five-bit field every gain code 0.5X to 2048X reads back as
      set, the bits 7:5 of CFG1 are kept, and a larger code is refused
      before any transfer. */
  lemma GainRoundTrip(b: Bus, f: set<nat>, gain: Byte)
    ensures var o := SetGainSpec(b, f, gain);
            && (gain > GAIN_2048X ==> o == Outcome(b, Err(InvalidGain)))
            && (gain <= GAIN_2048X ==>
                  && Rewrote(b, f, o, REG_CFG1, WithGain(b.regs[REG_CFG1], gain))
                  && (o.result.Ok? ==> o.bus.regs[REG_CFG1] & 0xE0 == b.regs[REG_CFG1] & 0xE0)
                  && (o.result.Ok? && |o.bus.trace| !in f ==> GetGainSpec(o.bus, f).result == Ok(gain)))
  {
    if gain <= GAIN_2048X {
      UpdateRewrote(b, f, REG_CFG1, c => WithGain(c, gain));
      var o := SetGainSpec(b, f, gain);
      ReadFieldEffect(o.bus, f, REG_CFG1, GainField);
    }
  }

  // ---- bank-switched accesses

  /** The transfers of a bank-switched access starting from CFG0 = `c0`:
      select the bank, do `access`, deselect it. */
  function BankedTransfers(c0: Byte, access: Transfer): seq<Transfer>
  {
    Rmw(REG_CFG0, WithBank(c0, true)) + [access] + Rmw(REG_CFG0, WithBank(WithBank(c0, true), false))
  }

  /** `get_chip_id()` as written: each `?` returns at once, so an error after
      the bank is selected leaves it selected. */
  function GetChipIdAsWrittenSpec(b: Bus, f: set<nat>): Outcome<Result<Byte>>
  {
    var o1 := SetBankSpec(b, f, true);
    if o1.result.Err? then Propagate(o1) else
    var o2 := ReadByteSpec(o1.bus, f, REG_ID);
    if o2.result.Err? then Propagate(o2) else
    var o3 := SetBankSpec(o2.bus, f, false);
    if o3.result.Err? then Propagate(o3) else
    Outcome(o3.bus, Ok(o2.result.value))
  }

  /** `get_chip_id()` with the bank scoped: once the bank is selected it is
      deselected whether or not the ID read succeeded, and the first error
      is returned. */
  function GetChipIdSpec(b: Bus, f: set<nat>): Outcome<Result<Byte>>
  {
    var o1 := SetBankSpec(b, f, true);
    if o1.result.Err? then Propagate(o1) else
    var o2 := ReadByteSpec(o1.bus, f, REG_ID);
    var o3 := SetBankSpec(o2.bus, f, false);
    if o2.result.Err? then Propagate(Outcome(o3.bus, o2.result))
    else if o3.result.Err? then Propagate(o3)
    else Outcome(o3.bus, Ok(o2.result.value))
  }

  /** On a bus with no failures both forms of `get_chip_id` select the bank,
      read the ID register, deselect the bank and return the ID, leaving
      CFG0 with bit 4 clear and the rest of CFG0 as it was. */
  lemma GetChipIdSuccess(b: Bus, f: set<nat>)
    requires NoFaults(f, |b.trace|, 5)
    ensures var o := GetChipIdAsWrittenSpec(b, f);
            var c0 := b.regs[REG_CFG0];
            && o == GetChipIdSpec(b, f)
            && o.result == Ok(b.regs[REG_ID])
            && o.bus.trace == b.trace + BankedTransfers(c0, Read(REG_ID, 1))
            && BankSelected(WithBank(c0, true))
            && o.bus.regs == b.regs[REG_CFG0 := WithBank(c0, false)]
            && !BankSelected(o.bus.regs[REG_CFG0])
  {
    var n := |b.trace|;
    var c0 := b.regs[REG_CFG0];
    SetBankEffect(b, f, true);
    var o1 := SetBankSpec(b, f, true);
    var o2 := ReadByteSpec(o1.bus, f, REG_ID);
    SetBankEffect(o2.bus, f, false);
    assert n + 4 !in f;
    BankTwice(c0);
  }

  /** As written, a failed ID read returns at once with the bank still
      selected: the deselecting transfers are never attempted. */
  lemma GetChipIdAsWrittenLeavesBank(b: Bus, f: set<nat>)
    requires NoFaults(f, |b.trace|, 2) && |b.trace| + 2 in f
    ensures var o := GetChipIdAsWrittenSpec(b, f);
            && o.result == Err(BusError)
            && |o.bus.trace| == |b.trace| + 3
            && BankSelected(o.bus.regs[REG_CFG0])
  {
    SetBankEffect(b, f, true);
  }

  /** With the bank scoped, whenever selecting the bank and deselecting it
      both go through, the bank ends deselected, whether or not the ID read
      itself failed; the result is the ID iff that read went through. */
  lemma GetChipIdRestoresBank(b: Bus, f: set<nat>)
    requires NoFaults(f, |b.trace|, 2) && NoFaults(f, |b.trace| + 3, 2)
    ensures var o := GetChipIdSpec(b, f);
            && o.result == (if |b.trace| + 2 in f then Err(BusError) else Ok(b.regs[REG_ID]))
            && o.bus.regs == b.regs[REG_CFG0 := WithBank(b.regs[REG_CFG0], false)]
            && !BankSelected(o.bus.regs[REG_CFG0])
  {
    var n := |b.trace|;
    var c0 := b.regs[REG_CFG0];
    SetBankEffect(b, f, true);
    var o1 := SetBankSpec(b, f, true);
    assert |o1.bus.trace| == n + 2;
    var o2 := ReadByteSpec(o1.bus, f, REG_ID);
    assert o2.bus.regs == o1.bus.regs && |o2.bus.trace| == n + 3;
    SetBankEffect(o2.bus, f, false);
    assert n + 3 !in f && n + 4 !in f;
    BankTwice(c0);
  }

  lemma BankTwice(c0: Byte)
    ensures WithBank(WithBank(c0, true), false) == WithBank(c0, false)
  {
  }

  lemma GetChipIdReportsFaults(b: Bus, f: set<nat>)
    ensures ReportsFaults(b, f, GetChipIdSpec(b, f))
  {
    SetBankEffect(b, f, true);
    var o1 := SetBankSpec(b, f, true);
    if o1.result.Ok? {
      var o2 := ReadByteSpec(o1.bus, f, REG_ID);
      SetBankEffect(o2.bus, f, false);
      var o3 := SetBankSpec(o2.bus, f, false);
      ReportsFaultsThen(o1.bus, f, o2, o3, GetChipIdSpec(b, f).result);
      ReportsFaultsThen(b, f, o1, Outcome(o3.bus, GetChipIdSpec(b, f).result), GetChipIdSpec(b, f).result);
    }
  }

  /** `get_chip_id` as written also returns a bus error iff one of the
      transfers it attempted failed: each `?` passes the first failure on. */
  lemma GetChipIdAsWrittenReportsFaults(b: Bus, f: set<nat>)
    ensures ReportsFaults(b, f, GetChipIdAsWrittenSpec(b, f))
  {
    SetBankEffect(b, f, true);
    var o1 := SetBankSpec(b, f, true);
    if o1.result.Ok? {
      var r := GetChipIdAsWrittenSpec(b, f).result;
      var o2 := ReadByteSpec(o1.bus, f, REG_ID);
      if o2.result.Ok? {
        SetBankEffect(o2.bus, f, false);
        var o3 := SetBankSpec(o2.bus, f, false);
        ReportsFaultsThen(o1.bus, f, o2, o3, r);
        ReportsFaultsThen(b, f, o1, Outcome(o3.bus, r), r);
      } else {
        ReportsFaultsThen(b, f, o1, o2, r);
      }
    }
  }

  /** `enable_led(enabled, strength)` as written: the on flag is 0xF0, and
      an error after the bank is selected leaves it selected. */
  function EnableLedAsWrittenSpec(b: Bus, f: set<nat>, enabled: bool, strength: Byte): Outcome<Result<()>>
  {
    var o1 := SetBankSpec(b, f, true);
    if o1.result.Err? then Propagate(o1) else
    var o2 := WriteSpec(o1.bus, f, REG_LED, LedByteAsWritten(enabled, strength));
    if o2.result.Err? then Propagate(o2) else
    var o3 := SetBankSpec(o2.bus, f, false);
    if o3.result.Err? then Propagate(o3) else
    Outcome(o3.bus, Ok(()))
  }

  /** `enable_led(enabled, strength)` with the on flag in bit 7 and the
      bank scoped as in `GetChipIdSpec`. */
  function EnableLedSpec(b: Bus, f: set<nat>, enabled: bool, strength: Byte): Outcome<Result<()>>
  {
    var o1 := SetBankSpec(b, f, true);
    if o1.result.Err? then Propagate(o1) else
    var o2 := WriteSpec(o1.bus, f, REG_LED, LedByte(enabled, strength));
    var o3 := SetBankSpec(o2.bus, f, false);
    if o2.result.Err? then Propagate(Outcome(o3.bus, o2.result))
    else if o3.result.Err? then Propagate(o3)
    else Outcome(o3.bus, Ok(()))
  }

  /** On a bus with no failures, `enable_led` as written selects the bank,
      writes `(enabled ? 0xF0 : 0) | (strength & 0x7F)` to LED and deselects
      the bank; the strength field then reads `0x70 | strength` when on. */
  lemma EnableLedAsWrittenSuccess(b: Bus, f: set<nat>, enabled: bool, strength: Byte)
    requires NoFaults(f, |b.trace|, 5)
    ensures var o := EnableLedAsWrittenSpec(b, f, enabled, strength);
            var c0 := b.regs[REG_CFG0];
            var led := LedByteAsWritten(enabled, strength);
            && o.result == Ok(())
            && o.bus.trace == b.trace + BankedTransfers(c0, Write(REG_LED, led))
            && o.bus.regs == b.regs[REG_CFG0 := WithBank(c0, false)][REG_LED := led]
            && led == (if enabled then 0xF0 else 0x00) | (strength & 0x7F)
            && LedOn(o.bus.regs[REG_LED]) == enabled
  {
    var n := |b.trace|;
    var c0 := b.regs[REG_CFG0];
    var led := LedByteAsWritten(enabled, strength);
    SetBankEffect(b, f, true);
    var o1 := SetBankSpec(b, f, true);
    var o2 := WriteSpec(o1.bus, f, REG_LED, led);
    SetBankEffect(o2.bus, f, false);
    assert n + 4 !in f;
    BankTwice(c0);
    assert b.regs[REG_CFG0 := WithBank(c0, true)][REG_LED := led][REG_CFG0 := WithBank(c0, false)]
        == b.regs[REG_CFG0 := WithBank(c0, false)][REG_LED := led];
  }

  /** As written, a failed LED write returns at once with the bank still selected. */
  lemma EnableLedAsWrittenLeavesBank(b: Bus, f: set<nat>, enabled: bool, strength: Byte)
    requires NoFaults(f, |b.trace|, 2) && |b.trace| + 2 in f
    ensures var o := EnableLedAsWrittenSpec(b, f, enabled, strength);
            && o.result == Err(BusError)
            && |o.bus.trace| == |b.trace| + 3
            && BankSelected(o.bus.regs[REG_CFG0])
            && o.bus.regs[REG_LED] == b.regs[REG_LED]
  {
    SetBankEffect(b, f, true);
  }

  /** With the bank scoped, whenever selecting and deselecting the bank go
      through, the bank ends deselected with the other CFG0 bits kept; the
      LED register then holds the requested on flag and strength iff its
      write went through, and no other register changes. */
  lemma EnableLedRestoresBank(b: Bus, f: set<nat>, enabled: bool, strength: Byte)
    requires NoFaults(f, |b.trace|, 2) && NoFaults(f, |b.trace| + 3, 2)
    ensures var o := EnableLedSpec(b, f, enabled, strength);
            var written := |b.trace| + 2 !in f;
            && (o.result.Ok? <==> written)
            && !BankSelected(o.bus.regs[REG_CFG0])
            && (written ==> (LedOn(o.bus.regs[REG_LED]) == enabled
                          && LedStrength(o.bus.regs[REG_LED]) == strength & 0x7F))
            && (!written ==> o.bus.regs[REG_LED] == b.regs[REG_LED])
            && o.bus.regs == b.regs[REG_CFG0 := WithBank(b.regs[REG_CFG0], false)]
                                   [REG_LED := if written then LedByte(enabled, strength)
                                               else b.regs[REG_LED]]
  {
    var n := |b.trace|;
    var c0 := b.regs[REG_CFG0];
    var led := if n + 2 !in f then LedByte(enabled, strength) else b.regs[REG_LED];
    SetBankEffect(b, f, true);
    var o1 := SetBankSpec(b, f, true);
    assert |o1.bus.trace| == n + 2;
    var o2 := WriteSpec(o1.bus, f, REG_LED, LedByte(enabled, strength));
    assert o2.bus.regs == o1.bus.regs[REG_LED := led] && |o2.bus.trace| == n + 3;
    SetBankEffect(o2.bus, f, false);
    assert n + 3 !in f && n + 4 !in f;
    BankTwice(c0);
  }

  /** The bank-scoped `enable_led` returns a bus error iff one of the
      transfers it attempted failed. */
  lemma EnableLedReportsFaults(b: Bus, f: set<nat>, enabled: bool, strength: Byte)
    ensures ReportsFaults(b, f, EnableLedSpec(b, f, enabled, strength))
  {
    SetBankEffect(b, f, true);
    var o1 := SetBankSpec(b, f, true);
    if o1.result.Ok? {
      var r := EnableLedSpec(b, f, enabled, strength).result;
      var o2 := WriteSpec(o1.bus, f, REG_LED, LedByte(enabled, strength));
      SetBankEffect(o2.bus, f, false);
      var o3 := SetBankSpec(o2.bus, f, false);
      assert o2.bus.trace[..|o1.bus.trace|] == o1.bus.trace;
      ReportsFaultsThen(o1.bus, f, o2, o3, r);
      ReportsFaultsThen(b, f, o1, Outcome(o3.bus, r), r);
    }
  }

  /** `enable_led` as written returns a bus error iff one of the transfers
      it attempted failed. */
  lemma EnableLedAsWrittenReportsFaults(b: Bus, f: set<nat>, enabled: bool, strength: Byte)
    ensures ReportsFaults(b, f, EnableLedAsWrittenSpec(b, f, enabled, strength))
  {
    SetBankEffect(b, f, true);
    var o1 := SetBankSpec(b, f, true);
    if o1.result.Ok? {
      var r := EnableLedAsWrittenSpec(b, f, enabled, strength).result;
      var o2 := WriteSpec(o1.bus, f, REG_LED, LedByteAsWritten(enabled, strength));
      assert o2.bus.trace[..|o1.bus.trace|] == o1.bus.trace;
      if o2.result.Ok? {
        SetBankEffect(o2.bus, f, false);
        var o3 := SetBankSpec(o2.bus, f, false);
        ReportsFaultsThen(o1.bus, f, o2, o3, r);
        ReportsFaultsThen(b, f, o1, Outcome(o3.bus, r), r);
      } else {
        ReportsFaultsThen(b, f, o1, o2, r);
      }
    }
  }

  // ---- start-up

  /** `begin()`: read the chip ID; on a match power on and select 18-channel
      auto-SMUX.  The ID is read with the bank scoped. */
  function BeginSpec(b: Bus, f: set<nat>): Outcome<Result<bool>>
  {
    var o1 := GetChipIdSpec(b, f);
    if o1.result.Err? then Propagate(o1)
    else if o1.result.value == CHIP_ID then
      var o2 := PowerEnableSpec(o1.bus, f, true);
      if o2.result.Err? then Propagate(o2) else
      var o3 := SetAutoSmuxSpec(o2.bus, f, AUTO_SMUX_18CHAN);
      if o3.result.Err? then Propagate(o3) else
      Outcome(o3.bus, Ok(true))
    else Outcome(o1.bus, Ok(false))
  }

  /** `begin()` as written: the ID is read by `get_chip_id` as written, so a
      failed ID read returns with the bank still selected. */
  function BeginAsWrittenSpec(b: Bus, f: set<nat>): Outcome<Result<bool>>
  {
    var o1 := GetChipIdAsWrittenSpec(b, f);
    if o1.result.Err? then Propagate(o1)
    else if o1.result.value == CHIP_ID then
      var o2 := PowerEnableSpec(o1.bus, f, true);
      if o2.result.Err? then Propagate(o2) else
      var o3 := SetAutoSmuxSpec(o2.bus, f, AUTO_SMUX_18CHAN);
      if o3.result.Err? then Propagate(o3) else
      Outcome(o3.bus, Ok(true))
    else Outcome(o1.bus, Ok(false))
  }

  /** When the chip-ID transfers all go through, `begin` as written and with
      the bank scoped are the same operation, so `BeginFound` and
      `BeginMismatch` describe the code as written too. */
  lemma BeginAsWrittenAgrees(b: Bus, f: set<nat>)
    requires NoFaults(f, |b.trace|, 5)
    ensures BeginAsWrittenSpec(b, f) == BeginSpec(b, f)
  {
    GetChipIdSuccess(b, f);
  }

  /** A failed ID read: `begin` as written returns the error with the bank
      still selected and ENABLE and CFG20 untouched; with the bank scoped it
      returns the same error with the bank deselected. */
  lemma BeginAsWrittenLeavesBank(b: Bus, f: set<nat>)
    requires NoFaults(f, |b.trace|, 2) && |b.trace| + 2 in f
    ensures var o := BeginAsWrittenSpec(b, f);
            && o.result == Err(BusError)
            && BankSelected(o.bus.regs[REG_CFG0])
            && o.bus.regs[REG_ENABLE] == b.regs[REG_ENABLE]
            && o.bus.regs[REG_CFG20] == b.regs[REG_CFG20]
    ensures var o := BeginSpec(b, f);
            NoFaults(f, |b.trace| + 3, 2) ==>
              o.result == Err(BusError) && !BankSelected(o.bus.regs[REG_CFG0])
  {
    GetChipIdAsWrittenLeavesBank(b, f);
    SetBankEffect(b, f, true);
    if NoFaults(f, |b.trace| + 3, 2) {
      GetChipIdRestoresBank(b, f);
    }
  }

  /** With ID 0x81 and no failed transfer, `begin` returns true with the
      device powered on (other ENABLE bits kept) and CFG20 rewritten as
      `(CFG20 & 0x8F) | (3 << 5)`. */
  lemma BeginFound(b: Bus, f: set<nat>)
    requires b.regs[REG_ID] == CHIP_ID
    requires NoFaults(f, |b.trace|, 9)
    ensures var o := BeginSpec(b, f);
            && o.result == Ok(true)
            && PoweredOn(o.bus.regs[REG_ENABLE])
            && o.bus.regs[REG_ENABLE] & !0x01 == b.regs[REG_ENABLE] & !0x01
            && o.bus.regs[REG_CFG20] == (b.regs[REG_CFG20] & 0x8F) | (AUTO_SMUX_18CHAN << 5)
            && SmuxMode(o.bus.regs[REG_CFG20]) == AUTO_SMUX_18CHAN
            && !BankSelected(o.bus.regs[REG_CFG0])
            && |o.bus.trace| == |b.trace| + 9
            && o.bus.regs == b.regs[REG_CFG0 := WithBank(b.regs[REG_CFG0], false)]
                                   [REG_ENABLE := WithPower(b.regs[REG_ENABLE], true)]
                                   [REG_CFG20 := WithSmux(b.regs[REG_CFG20], AUTO_SMUX_18CHAN)]
  {
    var n := |b.trace|;
    NoFaultsSplit(f, n, 5, 4);
    GetChipIdSuccess(b, f);
    var o1 := GetChipIdSpec(b, f);
    PowerEnableEffect(o1.bus, f, true);
    var o2 := PowerEnableSpec(o1.bus, f, true);
    assert NoFaults(f, n + 7, 2);
    SetAutoSmuxEffect(o2.bus, f, AUTO_SMUX_18CHAN);
  }

  /** With any other ID and no failed transfer, `begin` returns false and
      leaves ENABLE and CFG20 as they were. */
  lemma BeginMismatch(b: Bus, f: set<nat>)
    requires b.regs[REG_ID] != CHIP_ID
    requires NoFaults(f, |b.trace|, 5)
    ensures var o := BeginSpec(b, f);
            && o.result == Ok(false)
            && o.bus.regs[REG_ENABLE] == b.regs[REG_ENABLE]
            && o.bus.regs[REG_CFG20] == b.regs[REG_CFG20]
            && |o.bus.trace| == |b.trace| + 5
  {
    GetChipIdSuccess(b, f);
  }

  /** `begin` propagates every failed transfer: it returns a bus error iff
      one of the transfers it attempted failed. */
  lemma BeginReportsFaults(b: Bus, f: set<nat>)
    ensures ReportsFaults(b, f, BeginSpec(b, f))
  {
    GetChipIdReportsFaults(b, f);
    var o1 := GetChipIdSpec(b, f);
    var o := BeginSpec(b, f);
    if o1.result.Ok? && o1.result.value == CHIP_ID {
      PowerEnableEffect(o1.bus, f, true);
      var o2 := PowerEnableSpec(o1.bus, f, true);
      if o2.result.Ok? {
        SetAutoSmuxEffect(o2.bus, f, AUTO_SMUX_18CHAN);
        var o3 := SetAutoSmuxSpec(o2.bus, f, AUTO_SMUX_18CHAN);
        ReportsFaultsThen(o1.bus, f, o2, o3, o.result);
        ReportsFaultsThen(b, f, o1, Outcome(o3.bus, o.result), o.result);
      } else {
        ReportsFaultsThen(b, f, o1, o2, o.result);
      }
    }
  }

  /** `begin` as written returns a bus error iff one of the transfers it
      attempted failed, a failed bank selection included. */
  lemma BeginAsWrittenReportsFaults(b: Bus, f: set<nat>)
    ensures ReportsFaults(b, f, BeginAsWrittenSpec(b, f))
  {
    GetChipIdAsWrittenReportsFaults(b, f);
    var o1 := GetChipIdAsWrittenSpec(b, f);
    var o := BeginAsWrittenSpec(b, f);
    if o1.result.Ok? && o1.result.value == CHIP_ID {
      PowerEnableEffect(o1.bus, f, true);
      var o2 := PowerEnableSpec(o1.bus, f, true);
      if o2.result.Ok? {
        SetAutoSmuxEffect(o2.bus, f, AUTO_SMUX_18CHAN);
        var o3 := SetAutoSmuxSpec(o2.bus, f, AUTO_SMUX_18CHAN);
        ReportsFaultsThen(o1.bus, f, o2, o3, o.result);
        ReportsFaultsThen(b, f, o1, Outcome(o3.bus, o.result), o.result);
      } else {
        ReportsFaultsThen(b, f, o1, o2, o.result);
      }
    }
  }
}
