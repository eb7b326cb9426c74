/** Reading measurements: one channel at a time (`read_channel`), all 18 at
    once (`read_all_channels`), and the conversions that read the gain and
    integration time back from the device (`raw_to_basic_counts`,
    `raw_to_uwm2`). */
module Readout {
  import opened Registers
  import opened Fields
  import opened Bus
  import opened Transfers
  import opened Config
  import opened Polling
  import opened Channels
  import opened Calibration

  /** The address of channel `channel`'s low data byte, `0x95 + 2 * channel`;
      from 53 on the u8 sum of the high byte's address overflows. */
  function ChannelLow(channel: nat): Addr
    requires channel <= 52
  {
    REG_CH0_DATA_L + 2 * channel
  }

  /** `read_channel(channel)` as written: the two bytes are combined with `&`. */
  function ReadChannelAsWrittenSpec(b: Bus, f: set<nat>, channel: nat): Outcome<Result<bv16>>
    requires channel <= 52
  {
    var o1 := ReadByteSpec(b, f, ChannelLow(channel));
    if o1.result.Err? then Propagate(o1) else
    var o2 := ReadByteSpec(o1.bus, f, ChannelLow(channel) + 1);
    if o2.result.Err? then Propagate(o2) else
    Outcome(o2.bus, Ok(CombineAsWritten(o2.result.value, o1.result.value)))
  }

  /** `read_channel(channel)` with the bytes paired as `read_all_channels` pairs them. */
  function ReadChannelSpec(b: Bus, f: set<nat>, channel: nat): Outcome<Result<bv16>>
    requires channel <= 52
  {
    var o1 := ReadByteSpec(b, f, ChannelLow(channel));
    if o1.result.Err? then Propagate(o1) else
    var o2 := ReadByteSpec(o1.bus, f, ChannelLow(channel) + 1);
    if o2.result.Err? then Propagate(o2) else
    Outcome(o2.bus, Ok(Combine(o2.result.value, o1.result.value)))
  }

  /** The value `read_channel` returns as written is 0 whatever the data
      registers hold. */
  lemma ReadChannelAsWrittenZero(b: Bus, f: set<nat>, channel: nat)
    requires channel <= 52
    ensures var o := ReadChannelAsWrittenSpec(b, f, channel);
            o.result.Ok? ==> o.result.value == 0
  {
  }

  /** For channels 0 to 17, `read_channel` reads the channel's low and then
      high data register of the register map, and returns the count the bulk
      read decodes for that slot. */
  lemma ReadChannelMatchesBulk(b: Bus, f: set<nat>, c: Slot)
    ensures var o := ReadChannelSpec(b, f, c);
            && o.bus.regs == b.regs
            && (o.result.Ok? <==> NoFaults(f, |b.trace|, 2))
            && (o.result.Ok? ==>
                  && o.bus.trace == b.trace + [Read(CH_DATA_L[c], 1), Read(CH_DATA_H[c], 1)]
                  && o.result.value
                     == DecodeChannels(b.regs[REG_CH0_DATA_L..REG_CH0_DATA_L + DATA_BYTES])[c])
  {
    ChannelAddresses(c);
    DecodeSlot(b.regs, c);
    var o1 := ReadByteSpec(b, f, ChannelLow(c));
    var n := |b.trace|;
    assert NoFaults(f, n, 2) <==> n !in f && n + 1 !in f;
  }

  lemma DecodeSlot(regs: RegFile, c: Slot)
    ensures DecodeChannels(regs[REG_CH0_DATA_L..REG_CH0_DATA_L + DATA_BYTES])[c]
         == Combine(regs[ChannelLow(c) + 1], regs[ChannelLow(c)])
  {
    var bytes := regs[REG_CH0_DATA_L..REG_CH0_DATA_L + DATA_BYTES];
    var lo := bytes[2 * c];
    var hi := bytes[2 * c + 1];
    assert lo == regs[ChannelLow(c)];
    assert hi == regs[ChannelLow(c) + 1];
    assert DecodeChannels(bytes)[c] == Combine(hi, lo);
  }

  /** `read_all_channels()`: enable measurement, wait for data without a
      bound, then read the 36 data bytes in one transfer and decode them. */
  function ReadAllChannelsSpec(b: Bus, f: set<nat>, fuel: nat): Outcome<Wait<seq<bv16>>>
  {
    var o1 := EnableMeasurementSpec(b, f, true);
    if o1.result.Err? then Outcome(o1.bus, Done(Err(o1.result.error))) else
    var o2 := WaitForDataSpec(o1.bus, f, 0, fuel);
    match o2.result
    case Pending => Outcome(o2.bus, Pending)
    case Done(Err(e)) => Outcome(o2.bus, Done(Err(e)))
    case Done(Ok(_)) =>
      var o3 := ReadSpec(o2.bus, f, REG_CH0_DATA_L, DATA_BYTES);
      if o3.result.Err? then Outcome(o3.bus, Done(Err(o3.result.error)))
      else Outcome(o3.bus, Done(Ok(DecodeChannels(o3.result.value))))
  }

  /** The counts `read_all_channels` returns are the decoding of the 36
      bytes its last transfer, the bulk read at 0x95, found: slot `i` is
      `reg[2i] + 256 * reg[2i + 1]`.  The transfer before that bulk read is
      a poll of STATUS_2 that went through and saw data-ready.  It first
      rewrote ENABLE with bit 1 set.  As the device posts nothing but
      STATUS_2 while the driver waits, those bytes are the data registers
      as they were when it was called. */
  lemma ReadAllChannelsDecodes(b: Bus, f: set<nat>, fuel: nat)
    ensures var o := ReadAllChannelsSpec(b, f, fuel);
            var bytes := b.regs[REG_CH0_DATA_L..REG_CH0_DATA_L + DATA_BYTES];
            var m := |o.bus.trace|;
            o.result.Done? && o.result.result.Ok? ==>
              && o.result.result.value == DecodeChannels(o.bus.regs[REG_CH0_DATA_L..REG_CH0_DATA_L + DATA_BYTES])
              && m >= |b.trace| + 4
              && o.bus.trace[m - 2] == Read(REG_STATUS_2, 1) && m - 2 !in f
              && DataReady(o.bus.regs[REG_STATUS_2])
              && o.bus.trace[m - 1] == Read(REG_CH0_DATA_L, DATA_BYTES) && m - 1 !in f
              && o.result.result.value == DecodeChannels(bytes)
              && (forall i :: 0 <= i < CHANNEL_COUNT ==>
                    o.result.result.value[i] as int == bytes[2 * i] as int + 256 * bytes[2 * i + 1] as int)
              && o.bus.trace[|b.trace|..|b.trace| + 2] == Rmw(REG_ENABLE, WithMeasurement(b.regs[REG_ENABLE], true))
              && MeasurementEnabled(o.bus.regs[REG_ENABLE])
  {
    var o := ReadAllChannelsSpec(b, f, fuel);
    var o1 := EnableMeasurementSpec(b, f, true);
    EnableMeasurementEffect(b, f, true);
    if o1.result.Ok? {
      var o2 := PollForever(o1.bus, f, fuel);
      if o2.result.Done? && o2.result.result.Ok? {
        forall a: Addr | a != REG_STATUS_2
          ensures o2.bus.regs[a] == o1.bus.regs[a]
        {
          PollForeverKeeps(o1.bus, f, fuel, a);
        }
        var bytes := b.regs[REG_CH0_DATA_L..REG_CH0_DATA_L + DATA_BYTES];
        PollForeverKeeps(o1.bus, f, fuel, REG_ENABLE);
        assert o2.bus.regs[REG_CH0_DATA_L..REG_CH0_DATA_L + DATA_BYTES] == bytes;
        DecodeValues(bytes);
        if o.result.Done? && o.result.result.Ok? {
          assert o.result.result.value == DecodeChannels(bytes);
        }
        assert o1.bus.trace == b.trace + Rmw(REG_ENABLE, WithMeasurement(b.regs[REG_ENABLE], true));
        if o.result.Done? && o.result.result.Ok? {
          assert o.bus.trace == o2.bus.trace + [Read(REG_CH0_DATA_L, DATA_BYTES)];
          ExtendedKeepsWindow(b.trace, Rmw(REG_ENABLE, WithMeasurement(b.regs[REG_ENABLE], true)),
                              o1.bus.trace, o2.bus.trace, o.bus.trace);
        }
      }
    }
    ReadAllChannelsLastPoll(b, f, fuel);
  }

  /** The last two transfers of a successful `read_all_channels`: a poll of
      STATUS_2 that went through and saw data-ready, then the bulk read,
      whose bytes are the counts returned. */
  lemma ReadAllChannelsLastPoll(b: Bus, f: set<nat>, fuel: nat)
    ensures var o := ReadAllChannelsSpec(b, f, fuel);
            var m := |o.bus.trace|;
            o.result.Done? && o.result.result.Ok? ==>
              && m >= |b.trace| + 4
              && o.bus.trace[m - 2] == Read(REG_STATUS_2, 1) && m - 2 !in f
              && DataReady(o.bus.regs[REG_STATUS_2])
              && o.bus.trace[m - 1] == Read(REG_CH0_DATA_L, DATA_BYTES) && m - 1 !in f
              && o.result.result.value == DecodeChannels(o.bus.regs[REG_CH0_DATA_L..REG_CH0_DATA_L + DATA_BYTES])
  {
    var o := ReadAllChannelsSpec(b, f, fuel);
    var o1 := EnableMeasurementSpec(b, f, true);
    EnableMeasurementEffect(b, f, true);
    if o.result.Done? && o.result.result.Ok? {
      var o2 := PollForever(o1.bus, f, fuel);
      PollForeverReadyLast(o1.bus, f, fuel);
      assert o.bus.trace == o2.bus.trace + [Read(REG_CH0_DATA_L, DATA_BYTES)];
      assert o.bus.regs == o2.bus.regs;
    }
  }

  /** A log that extends `t0 + w` still holds `w` right after `t0`. */
  lemma ExtendedKeepsWindow(t0: seq<Transfer>, w: seq<Transfer>, t1: seq<Transfer>, t2: seq<Transfer>, t3: seq<Transfer>)
    requires t1 == t0 + w
    requires |t1| <= |t2| && t2[..|t1|] == t1
    requires |t2| <= |t3| && t3[..|t2|] == t2
    ensures t3[|t0|..|t0| + |w|] == w
  {
    forall i | 0 <= i < |w|
      ensures t3[|t0| + i] == w[i]
    {
      assert t3[|t0| + i] == t2[|t0| + i] == t1[|t0| + i];
    }
  }

  // ---- conversions that read the device

  /** The settings the conversions read, as integers: the gain code in
      CFG1 bits 4:0, ATIME, and ASTEP paired from its two registers. */
  function GainCodeIn(regs: RegFile): (g: nat)
    ensures g < 32
  {
    GainField(regs[REG_CFG1]) as int
  }

  function AtimeIn(regs: RegFile): U8
  {
    regs[REG_ATIME] as int
  }

  function AstepIn(regs: RegFile): U16
  {
    Combine(regs[REG_ASTEP_HIGH], regs[REG_ASTEP_LOW]) as int
  }

  /** `raw_to_basic_counts(raw)`: read the gain, ATIME and ASTEP, and
      normalise `raw` by them. */
  function RawToBasicCountsSpec(b: Bus, f: set<nat>, raw: U16): Outcome<Result<real>>
  {
    var o1 := GetGainSpec(b, f);
    if o1.result.Err? then Propagate(o1) else
    var o2 := GetAtimeSpec(o1.bus, f);
    if o2.result.Err? then Propagate(o2) else
    var o3 := GetAstepSpec(o2.bus, f);
    if o3.result.Err? then Propagate(o3) else
    Outcome(o3.bus, Ok(BasicCounts(raw, o1.result.value as int, o2.result.value as int, o3.result.value as int)))
  }

  /** `raw_to_basic_counts(raw)` as written: the three-bit gain read, the
      `&`-combined ASTEP read and the wrapping `atime + 1`. */
  function RawToBasicCountsAsWrittenSpec(b: Bus, f: set<nat>, raw: U16): Outcome<Result<Option<real>>>
  {
    var o1 := GetGainAsWrittenSpec(b, f);
    if o1.result.Err? then Propagate(o1) else
    var o2 := GetAtimeSpec(o1.bus, f);
    if o2.result.Err? then Propagate(o2) else
    var o3 := GetAstepAsWrittenSpec(o2.bus, f);
    if o3.result.Err? then Propagate(o3) else
    Outcome(o3.bus, Ok(BasicCountsAsWritten(raw, o1.result.value as int, o2.result.value as int, o3.result.value as int)))
  }

  /** `raw_to_basic_counts` changes no register, makes four reads, and
      returns the basic count for the gain code in CFG1 bits 4:0, ATIME and
      the 16-bit ASTEP. */
  lemma RawToBasicCountsValue(b: Bus, f: set<nat>, raw: U16)
    ensures var o := RawToBasicCountsSpec(b, f, raw);
            && o.bus.regs == b.regs
            && (o.result.Ok? <==> NoFaults(f, |b.trace|, 4))
            && (o.result.Ok? ==>
                  o.result.value
                  == BasicCounts(raw, GainCodeIn(b.regs), AtimeIn(b.regs), AstepIn(b.regs)))
  {
    var n := |b.trace|;
    ReadFieldEffect(b, f, REG_CFG1, GainField);
    var o1 := GetGainSpec(b, f);
    ReadFieldEffect(o1.bus, f, REG_ATIME, c => c);
    var o2 := GetAtimeSpec(o1.bus, f);
    GetAstepEffect(o2.bus, f);
    NoFaultsSplit(f, n, 2, 2);
    assert NoFaults(f, n, 2) <==> n !in f && n + 1 !in f;
  }

  /** As written, `raw_to_basic_counts` ignores ASTEP (the value read back is
      always 0), uses only the low three bits of the gain code, and has no
      finite result at ATIME = 255. */
  lemma RawToBasicCountsAsWrittenValue(b: Bus, f: set<nat>, raw: U16)
    ensures var o := RawToBasicCountsAsWrittenSpec(b, f, raw);
            o.result.Ok? ==>
              o.result.value == BasicCountsAsWritten(raw, GainFieldAsWritten(b.regs[REG_CFG1]) as int,
                                                     b.regs[REG_ATIME] as int, 0)
  {
    ReadFieldEffect(b, f, REG_CFG1, GainFieldAsWritten);
    var o1 := GetGainAsWrittenSpec(b, f);
    ReadFieldEffect(o1.bus, f, REG_ATIME, c => c);
  }

  /** `raw_to_uwm2(...)`: the reading's basic count over the reference's
      basic count, times the reference irradiance. */
  function RawToUwm2Spec(b: Bus, f: set<nat>, raw: U16, count: U16, timeMs: real, calGain: nat, ee: real): Outcome<Result<real>>
    requires count > 0 && timeMs > 0.0 && calGain < 32
  {
    Scaled(RawToBasicCountsSpec(b, f, raw), CalibrationBasicCounts(count, timeMs, calGain), ee)
  }

  /** The basic count of `o` over the reference basic count `calibration`,
      times `ee`; an error is passed on. */
  function Scaled(o: Outcome<Result<real>>, calibration: real, ee: real): Outcome<Result<real>>
    requires calibration > 0.0
  {
    Outcome(o.bus, ScaledResult(o.result, calibration, ee))
  }

  function ScaledResult(r: Result<real>, calibration: real, ee: real): Result<real>
    requires calibration > 0.0
  {
    if r.Err? then Err(r.error) else Ok(r.value / calibration * ee)
  }

  /** `ScaledResult` over the as-written basic count, where `None` stands
      for the infinite or NaN f32 quotient and stays `None` (infinity
      times an `ee` of 0 is NaN as well). */
  function ScaledOption(r: Result<Option<real>>, calibration: real, ee: real): Result<Option<real>>
    requires calibration > 0.0
  {
    if r.Err? then Err(r.error)
    else if r.value.None? then Ok(None)
    else Ok(Some(r.value.value / calibration * ee))
  }

  /** `raw_to_uwm2(...)` as written: built on `raw_to_basic_counts` as
      written. */
  function RawToUwm2AsWrittenSpec(b: Bus, f: set<nat>, raw: U16, count: U16, timeMs: real, calGain: nat, ee: real): Outcome<Result<Option<real>>>
    requires count > 0 && timeMs > 0.0 && calGain < 32
  {
    var o := RawToBasicCountsAsWrittenSpec(b, f, raw);
    Outcome(o.bus, ScaledOption(o.result, CalibrationBasicCounts(count, timeMs, calGain), ee))
  }

  /** `raw_to_basic_counts` as written changes no register and fails iff
      one of its four reads fails; its value uses the three-bit gain, ATIME
      and an ASTEP of 0. */
  lemma RawToBasicCountsAsWrittenEffect(b: Bus, f: set<nat>, raw: U16)
    ensures var o := RawToBasicCountsAsWrittenSpec(b, f, raw);
            && o.bus.regs == b.regs
            && (o.result.Ok? <==> NoFaults(f, |b.trace|, 4))
            && (o.result.Ok? ==>
                  o.result.value == BasicCountsAsWritten(raw, GainFieldAsWritten(b.regs[REG_CFG1]) as int,
                                                         AtimeIn(b.regs), 0))
  {
    var n := |b.trace|;
    ReadFieldEffect(b, f, REG_CFG1, GainFieldAsWritten);
    var o1 := GetGainAsWrittenSpec(b, f);
    ReadFieldEffect(o1.bus, f, REG_ATIME, c => c);
    var o2 := GetAtimeSpec(o1.bus, f);
    GetAstepAsWrittenEffect(o2.bus, f);
    NoFaultsSplit(f, n, 2, 2);
    assert NoFaults(f, n, 2) <==> n !in f && n + 1 !in f;
  }

  /** As written, `raw_to_uwm2` returns the calibration formula's irradiance
      for the three-bit gain code, ATIME and an ASTEP of 0, whatever ASTEP
      the device holds, and no finite value at ATIME = 255; it changes no
      register and fails iff one of its reads fails. */
  lemma RawToUwm2AsWrittenValue(b: Bus, f: set<nat>, raw: U16, count: U16, timeMs: real, calGain: nat, ee: real)
    requires count > 0 && timeMs > 0.0 && calGain < 32
    ensures var o := RawToUwm2AsWrittenSpec(b, f, raw, count, timeMs, calGain, ee);
            && o.bus.regs == b.regs
            && (o.result.Ok? <==> NoFaults(f, |b.trace|, 4))
            && (o.result.Ok? ==>
                  o.result.value
                  == if AtimeIn(b.regs) == 0xFF then None
                     else Some(Irradiance(raw, GainFieldAsWritten(b.regs[REG_CFG1]) as int, AtimeIn(b.regs), 0,
                                          count, timeMs, calGain, ee)))
  {
    RawToBasicCountsAsWrittenEffect(b, f, raw);
    ScaledAsWritten(RawToBasicCountsAsWrittenSpec(b, f, raw).result, raw, GainFieldAsWritten(b.regs[REG_CFG1]) as int,
                    AtimeIn(b.regs), count, timeMs, calGain, ee);
  }

  /** Scaling an as-written basic count (ASTEP taken as 0) gives the
      irradiance, except at ATIME = 255 where there is no finite value. */
  lemma ScaledAsWritten(r: Result<Option<real>>, raw: U16, gain: nat, atime: U8,
                        count: U16, timeMs: real, calGain: nat, ee: real)
    requires gain < 32 && count > 0 && timeMs > 0.0 && calGain < 32
    requires r.Ok? ==> r.value == BasicCountsAsWritten(raw, gain, atime, 0)
    ensures var s := ScaledOption(r, CalibrationBasicCounts(count, timeMs, calGain), ee);
            && (s.Ok? <==> r.Ok?)
            && (s.Ok? ==>
                  s.value == if atime == 0xFF then None
                             else Some(Irradiance(raw, gain, atime, 0, count, timeMs, calGain, ee)))
  {
    var c := CalibrationBasicCounts(count, timeMs, calGain);
    if r.Ok? && atime != 0xFF {
      var q := BasicCounts(raw, gain, atime, 0);
      assert r == Ok(Some(q));
      ScaledSome(r, q, c, ee, Irradiance(raw, gain, atime, 0, count, timeMs, calGain, ee));
    }
  }

  /** Scaling a finite basic count `q` by `c` and `e`. */
  lemma ScaledSome(r: Result<Option<real>>, q: real, c: real, e: real, i: real)
    requires c > 0.0
    requires r == Ok(Some(q)) && i == q / c * e
    ensures ScaledOption(r, c, e) == Ok(Some(i))
  {
    var s := ScaledOption(r, c, e);
    assert s.value.value == q / c * e;
  }

  /** `raw_to_uwm2` returns the irradiance of the calibration formula for
      the gain and integration time the device holds, changing no register. */
  lemma RawToUwm2Value(b: Bus, f: set<nat>, raw: U16, count: U16, timeMs: real, calGain: nat, ee: real)
    requires count > 0 && timeMs > 0.0 && calGain < 32
    ensures var o := RawToUwm2Spec(b, f, raw, count, timeMs, calGain, ee);
            && o.bus.regs == b.regs
            && (o.result.Ok? <==> NoFaults(f, |b.trace|, 4))
            && (o.result.Ok? ==>
                  o.result.value
                  == Irradiance(raw, GainCodeIn(b.regs), AtimeIn(b.regs), AstepIn(b.regs),
                                count, timeMs, calGain, ee))
  {
    RawToBasicCountsValue(b, f, raw);
  }
}
