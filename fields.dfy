/** The byte transformations the driver applies to register values: the
    read-modify-write masks of the setters, the status-bit tests and the
    byte pairing of 16-bit values.  Each function says which bits it sets
    and that it leaves every other bit as it was. */
module Fields {
  import opened Registers

  /** CFG0 bit 4 selects the alternate register bank. */
  predicate BankSelected(cfg0: Byte)
  {
    cfg0 & 0x10 != 0
  }

  /** CFG0 as `set_bank(low)` writes it back. */
  function WithBank(cfg0: Byte, low: bool): (r: Byte)
    ensures BankSelected(r) == low
    ensures r & !0x10 == cfg0 & !0x10
  {
    (cfg0 & 0xEF) | (if low then 0x10 else 0x00)
  }

  /** ENABLE bit 0 (power on). */
  predicate PoweredOn(enable: Byte)
  {
    enable & 0x01 != 0
  }

  /** ENABLE as `power_enable(power)` writes it back. */
  function WithPower(enable: Byte, power: bool): (r: Byte)
    ensures PoweredOn(r) == power
    ensures r & !0x01 == enable & !0x01
  {
    (enable & 0xFE) | (if power then 0x01 else 0x00)
  }

  /** ENABLE bit 1 (spectral measurement enabled). */
  predicate MeasurementEnabled(enable: Byte)
  {
    enable & 0x02 != 0
  }

  /** ENABLE as `enable_spectral_measurement(enabled)` writes it back. */
  function WithMeasurement(enable: Byte, enabled: bool): (r: Byte)
    ensures MeasurementEnabled(r) == enabled
    ensures r & !0x02 == enable & !0x02
  {
    (enable & 0xFD) | (if enabled then 0x02 else 0x00)
  }

  /** The auto-SMUX mode held in CFG20 bits 6:5. */
  function SmuxMode(cfg20: Byte): Byte
  {
    (cfg20 >> 5) & 0x03
  }

  /** CFG20 as `set_auto_smux(smux)` writes it back: bits 6:5 take the low
      two bits of `smux`, bit 4 is cleared, bits 7 and 3:0 are kept. */
  function WithSmux(cfg20: Byte, smux: Byte): (r: Byte)
    ensures SmuxMode(r) == smux & 0x03
    ensures r & 0x10 == 0
    ensures r & 0x8F == cfg20 & 0x8F
  {
    (cfg20 & 0x8F) | ((smux & 0x03) << 5)
  }

  /** The gain code in CFG1 as `get_gain` reads it: the low three bits. */
  function GainFieldAsWritten(cfg1: Byte): Byte
  {
    cfg1 & 0x07
  }

  /** CFG1 as `set_gain(gain)` writes it back: a three-bit field, so the
      codes 8 to 12 (128X to 2048X) lose their bit 3. */
  function WithGainAsWritten(cfg1: Byte, gain: Byte): (r: Byte)
    ensures GainFieldAsWritten(r) == gain & 0x07
    ensures r & 0xF8 == cfg1 & 0xF8
  {
    (cfg1 & 0xF8) | (gain & 0x07)
  }

  /** The gain code in CFG1 bits 4:0, wide enough for all 13 codes. */
  function GainField(cfg1: Byte): Byte
  {
    cfg1 & 0x1F
  }

  /** CFG1 with a five-bit gain field holding `gain`; bits 7:5 kept. */
  function WithGain(cfg1: Byte, gain: Byte): (r: Byte)
    requires gain <= GAIN_2048X
    ensures GainField(r) == gain
    ensures r & 0xE0 == cfg1 & 0xE0
  {
    (cfg1 & 0xE0) | gain
  }

  /** The LED register: bit 7 turns the LED on, bits 6:0 hold the drive strength. */
  predicate LedOn(led: Byte)
  {
    led & 0x80 != 0
  }

  function LedStrength(led: Byte): Byte
  {
    led & 0x7F
  }

  /** The LED byte `enable_led` writes: the 0xF0 it uses for "on" also sets
      strength bits 6:4, so the strength read back is not the one requested. */
  function LedByteAsWritten(enabled: bool, strength: Byte): (r: Byte)
    ensures LedOn(r) == enabled
    ensures LedStrength(r) == (if enabled then 0x70 | (strength & 0x7F) else strength & 0x7F)
  {
    (if enabled then 0xF0 else 0x00) | (strength & 0x7F)
  }

  /** The LED byte with the on flag in bit 7 only. */
  function LedByte(enabled: bool, strength: Byte): (r: Byte)
    ensures LedOn(r) == enabled
    ensures LedStrength(r) == strength & 0x7F
  {
    (if enabled then 0x80 else 0x00) | (strength & 0x7F)
  }

  /** With the LED on, a strength below 0x70 never reads back as written. */
  lemma LedStrengthClobbered(strength: Byte)
    requires strength < 0x70
    ensures LedStrength(LedByteAsWritten(true, strength)) != strength
    ensures LedStrength(LedByte(true, strength)) == strength
  {
  }

  /** STATUS_2 bit 6: spectral data ready. */
  predicate DataReady(status2: Byte)
  {
    status2 & 0x40 > 0
  }

  /** STATUS_2 bit 4: digital saturation. */
  predicate DigitalSaturation(status2: Byte)
  {
    status2 & 0x10 > 0
  }

  /** STATUS_2 bit 3: analog saturation. */
  predicate AnalogSaturation(status2: Byte)
  {
    status2 & 0x08 > 0
  }

  /** STATUS_2 as `clear_digital_saturation_status` writes it back. */
  function ClearDigitalSaturation(status2: Byte): (r: Byte)
    ensures !DigitalSaturation(r)
    ensures r & !0x10 == status2 & !0x10
    ensures AnalogSaturation(r) == AnalogSaturation(status2)
    ensures DataReady(r) == DataReady(status2)
  {
    status2 & 0xEF
  }

  /** STATUS_2 as `clear_analog_saturation_status` writes it back. */
  function ClearAnalogSaturation(status2: Byte): (r: Byte)
    ensures !AnalogSaturation(r)
    ensures r & !0x08 == status2 & !0x08
    ensures DigitalSaturation(r) == DigitalSaturation(status2)
    ensures DataReady(r) == DataReady(status2)
  {
    status2 & 0xF7
  }

  /** The low byte of a 16-bit value, as `set_astep` sends it first. */
  function LowByte(v: bv16): Byte
  {
    (v & 0xFF) as Byte
  }

  /** The high byte of a 16-bit value, as `set_astep` sends it second. */
  function HighByte(v: bv16): Byte
  {
    ((v & 0xFF00) >> 8) as Byte
  }

  /** `((hi as u16) << 8) + lo as u16`: the byte pairing of the bulk channel read. */
  function Combine(hi: Byte, lo: Byte): (v: bv16)
    ensures HighByte(v) == hi && LowByte(v) == lo
  {
    ((hi as bv16) << 8) + (lo as bv16)
  }

  /** The pairing is the little-endian value of the two bytes. */
  lemma CombineValue(hi: Byte, lo: Byte)
    ensures Combine(hi, lo) as int == hi as int * 256 + lo as int
  {
    var v := ((hi as bv16) << 8) + (lo as bv16);
    assert Combine(hi, lo) == v;
    PairValue(hi, lo);
  }

  lemma PairValue(hi: Byte, lo: Byte)
    ensures (((hi as bv16) << 8) + (lo as bv16)) as int == hi as int * 256 + lo as int
  {
    PlusIsOr(hi, lo);
    OrAsInt(hi, lo);
  }

  /** The shifted high byte and the low byte share no bit, so adding them is OR-ing them. */
  lemma PlusIsOr(hi: Byte, lo: Byte)
    ensures ((hi as bv16) << 8) + (lo as bv16) == ((hi as bv16) << 8) | (lo as bv16)
  {
  }

  lemma OrAsInt(hi: Byte, lo: Byte)
    ensures (((hi as bv16) << 8) | (lo as bv16)) as int == hi as int * 256 + lo as int
  {
  }

  /** `((hi as u16) << 8) & lo as u16`: the pairing `get_astep` and
      `read_channel` use; the shifted high byte has no bit in common with
      the low byte, so the result is always zero. */
  function CombineAsWritten(hi: Byte, lo: Byte): (v: bv16)
    ensures v == 0
  {
    ((hi as bv16) << 8) & (lo as bv16)
  }

  /** Splitting a 16-bit value into its two bytes and pairing them again gives it back. */
  lemma SplitCombine(v: bv16)
    ensures Combine(HighByte(v), LowByte(v)) == v
    ensures HighByte(v) as int * 256 + LowByte(v) as int == v as int
  {
  }
}
