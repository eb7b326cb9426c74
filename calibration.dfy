/** The calibration arithmetic of the AS7343 datasheet (v6-00, section 6,
    figure 8), over exact reals.  A raw count is normalised to a "basic
    count" by the gain and the integration time; the irradiance is the
    ratio of that basic count to the basic count of a reference reading,
    times the reference irradiance. */
module Calibration {
  import opened Registers

  function Pow2(n: nat): (p: real)
    ensures p >= 1.0
  {
    if n == 0 then 1.0 else 2.0 * Pow2(n - 1)
  }

  /** The multiplier of gain code `g`: 0.5 for code 0, `1 << (g - 1)` otherwise.
      Codes from 32 up make the shift overflow its 32-bit integer. */
  function GainValue(g: nat): (m: real)
    requires g < 32
    ensures m > 0.0
  {
    if g == 0 then 0.5 else Pow2(g - 1)
  }

  /** Each gain code doubles the multiplier of the one below, starting from 0.5X. */
  lemma GainDoubles(g: nat)
    requires g < 31
    ensures GainValue(0) == 0.5
    ensures GainValue(g + 1) == 2.0 * GainValue(g)
  {
  }

  /** The named codes 0.5X to 2048X have the multipliers their names say. */
  lemma {:induction false} GainTable()
    ensures GainValue(GAIN_0_5X as int) == 0.5
    ensures GainValue(GAIN_1X as int) == 1.0
    ensures GainValue(GAIN_64X as int) == 64.0
    ensures GainValue(GAIN_1024X as int) == 1024.0
    ensures GainValue(GAIN_2048X as int) == 2048.0
  {
    assert Pow2(6) == 64.0 by {
      assert Pow2(1) == 2.0;
      assert Pow2(2) == 4.0;
      assert Pow2(3) == 8.0;
      assert Pow2(4) == 16.0;
      assert Pow2(5) == 32.0;
    }
    assert Pow2(11) == 2048.0 by {
      assert Pow2(7) == 128.0;
      assert Pow2(8) == 256.0;
      assert Pow2(9) == 512.0;
      assert Pow2(10) == 1024.0;
    }
  }

  /** The source's unsigned register widths, as integers. */
  type U8 = x: int | 0 <= x < 0x100
  type U16 = x: int | 0 <= x < 0x1_0000

  /** Total integration time in milliseconds: `(ATIME + 1) * (ASTEP + 1) * 2.78 us`. */
  function IntegrationTimeMs(atime: U8, astep: U16): (t: real)
    ensures 2.78 / 1000.0 <= t
  {
    (atime + 1) as real * (astep + 1) as real * 2.78 / 1000.0
  }

  /** `raw_to_basic_counts` on the gain code and ATIME/ASTEP read from the
      device: the raw count per unit of gain and per millisecond. */
  function BasicCounts(raw: U16, gain: nat, atime: U8, astep: U16): (bc: real)
    requires gain < 32
    ensures bc * (GainValue(gain) * IntegrationTimeMs(atime, astep)) == raw as real
    ensures bc >= 0.0
  {
    var d := GainValue(gain) * IntegrationTimeMs(atime, astep);
    assert d > 0.0;
    raw as real / d
  }

  /** `calibration_to_basic_counts`: the same normalisation for a reference
      count taken at `timeMs` milliseconds and gain code `gain`. */
  function CalibrationBasicCounts(count: U16, timeMs: real, gain: nat): (bc: real)
    requires timeMs > 0.0 && gain < 32
    ensures bc * (GainValue(gain) * timeMs) == count as real
    ensures count > 0 ==> bc > 0.0
  {
    var d := GainValue(gain) * timeMs;
    assert d > 0.0;
    count as real / d
  }

  /** `raw_to_uwm2`: the reading's basic count over the reference's, times
      the reference irradiance `ee`. */
  function Irradiance(raw: U16, gain: nat, atime: U8, astep: U16,
                      count: U16, timeMs: real, calGain: nat, ee: real): real
    requires gain < 32 && calGain < 32
    requires count > 0 && timeMs > 0.0
  {
    BasicCounts(raw, gain, atime, astep) / CalibrationBasicCounts(count, timeMs, calGain) * ee
  }

  /** The irradiance in closed form: the raw count scaled by the reference's
      gain and time against the reading's. */
  lemma IrradianceClosedForm(raw: U16, gain: nat, atime: U8, astep: U16,
                             count: U16, timeMs: real, calGain: nat, ee: real)
    requires gain < 32 && calGain < 32
    requires count > 0 && timeMs > 0.0
    ensures Irradiance(raw, gain, atime, astep, count, timeMs, calGain, ee)
         == (raw as real * (GainValue(calGain) * timeMs) * ee)
            / (count as real * (GainValue(gain) * IntegrationTimeMs(atime, astep)))
  {
    Divisors(gain, atime, astep, count, timeMs, calGain);
    var i := Irradiance(raw, gain, atime, astep, count, timeMs, calGain, ee);
    assert i == BasicCounts(raw, gain, atime, astep) / CalibrationBasicCounts(count, timeMs, calGain) * ee;
    Quotient(i,
             BasicCounts(raw, gain, atime, astep), CalibrationBasicCounts(count, timeMs, calGain),
             raw as real, GainValue(gain) * IntegrationTimeMs(atime, astep),
             count as real, GainValue(calGain) * timeMs, ee);
  }

  /** The divisors of the two basic counts and the reference count are positive. */
  lemma Divisors(gain: nat, atime: U8, astep: U16, count: U16, timeMs: real, calGain: nat)
    requires gain < 32 && calGain < 32
    requires count > 0 && timeMs > 0.0
    ensures GainValue(gain) * IntegrationTimeMs(atime, astep) > 0.0
    ensures GainValue(calGain) * timeMs > 0.0
    ensures count as real > 0.0
  {
  }

  /** `i = (r / d) / (n / c) * e`, for the quotients `q = r / d` and
      `p = n / c` with every denominator positive, is `(r * c * e) / (n * d)`. */
  lemma Quotient(i: real, q: real, p: real, r: real, d: real, n: real, c: real, e: real)
    requires d > 0.0 && n > 0.0 && c > 0.0
    requires q * d == r && p * c == n
    requires i == q / p * e
    ensures i == (r * c * e) / (n * d)
  {
    assert q == r / d;
    assert p == n / c;
    assert (r / d) / (n / c) == (r * c) / (d * n);
  }

  /** The irradiance is linear in the reference irradiance `ee`. */
  lemma IrradianceLinearInEe(raw: U16, gain: nat, atime: U8, astep: U16,
                             count: U16, timeMs: real, calGain: nat, ee1: real, ee2: real, k: real)
    requires gain < 32 && calGain < 32
    requires count > 0 && timeMs > 0.0
    ensures Irradiance(raw, gain, atime, astep, count, timeMs, calGain, k * ee1 + ee2)
         == k * Irradiance(raw, gain, atime, astep, count, timeMs, calGain, ee1)
            + Irradiance(raw, gain, atime, astep, count, timeMs, calGain, ee2)
  {
    var q := BasicCounts(raw, gain, atime, astep) / CalibrationBasicCounts(count, timeMs, calGain);
    assert q * (k * ee1 + ee2) == k * (q * ee1) + q * ee2;
  }

  /** The irradiance is inversely proportional to the reference count:
      its product with the count does not depend on the count. */
  lemma IrradianceInverseInCount(raw: U16, gain: nat, atime: U8, astep: U16,
                                 count1: U16, count2: U16, timeMs: real, calGain: nat, ee: real)
    requires gain < 32 && calGain < 32
    requires count1 > 0 && count2 > 0 && timeMs > 0.0
    ensures Irradiance(raw, gain, atime, astep, count1, timeMs, calGain, ee) * count1 as real
         == Irradiance(raw, gain, atime, astep, count2, timeMs, calGain, ee) * count2 as real
  {
    IrradianceTimesCount(raw, gain, atime, astep, count1, timeMs, calGain, ee);
    IrradianceTimesCount(raw, gain, atime, astep, count2, timeMs, calGain, ee);
  }

  lemma IrradianceTimesCount(raw: U16, gain: nat, atime: U8, astep: U16,
                             count: U16, timeMs: real, calGain: nat, ee: real)
    requires gain < 32 && calGain < 32
    requires count > 0 && timeMs > 0.0
    ensures Irradiance(raw, gain, atime, astep, count, timeMs, calGain, ee) * count as real
         == (raw as real * (GainValue(calGain) * timeMs) * ee) / (GainValue(gain) * IntegrationTimeMs(atime, astep))
  {
    var x := raw as real * (GainValue(calGain) * timeMs) * ee;
    var y := GainValue(gain) * IntegrationTimeMs(atime, astep);
    IrradianceClosedForm(raw, gain, atime, astep, count, timeMs, calGain, ee);
    CancelCount(x, y, count as real);
  }

  lemma CancelCount(x: real, y: real, n: real)
    requires y > 0.0 && n > 0.0
    ensures x / (n * y) * n == x / y
  {
  }

  /** A reading taken at the reference's own gain and integration time,
      with the reference's count, reproduces the reference irradiance. */
  lemma IrradianceAtReference(raw: U16, gain: nat, atime: U8, astep: U16, ee: real)
    requires gain < 32 && raw > 0
    ensures Irradiance(raw, gain, atime, astep, raw, IntegrationTimeMs(atime, astep), gain, ee) == ee
  {
    var t := IntegrationTimeMs(atime, astep);
    IrradianceClosedForm(raw, gain, atime, astep, raw, t, gain, ee);
    var r := raw as real;
    var g := GainValue(gain) * t;
    assert (r * g * ee) / (r * g) == ee;
  }

  /** The datasheet's example: 5749 counts at 1024X over 27.8 ms
      (ATIME = ASTEP = 99), referenced to itself, gives back 155. */
  lemma ReferenceExample()
    ensures IntegrationTimeMs(99, 99) == 27.8
    ensures Irradiance(5749, GAIN_1024X as int, 99, 99, 5749, 27.8, GAIN_1024X as int, 155.0) == 155.0
  {
    IrradianceAtReference(5749, GAIN_1024X as int, 99, 99, 155.0);
  }

  /** `raw_to_basic_counts` as written computes `atime + 1` in u8 and
      `astep + 1` in u16: at ATIME = 255 or ASTEP = 65535 the sum wraps to 0
      (a debug build panics instead) and the f32 quotient is infinite (or 0/0, NaN, when `raw` is
      0), which `None` stands for.  Everywhere else it agrees with `BasicCounts`. */
  function BasicCountsAsWritten(raw: U16, gain: nat, atime: U8, astep: U16): (bc: Option<real>)
    requires gain < 32
    ensures bc.Some? <==> atime != 0xFF && astep != 0xFFFF
    ensures bc.Some? ==> bc.value == BasicCounts(raw, gain, atime, astep)
  {
    var steps := (atime + 1) % 0x100;
    var ticks := (astep + 1) % 0x1_0000;
    if steps == 0 || ticks == 0 then None
    else
      assert steps == atime + 1 && ticks == astep + 1;
      Some(raw as real / (GainValue(gain) * (steps as real * ticks as real * 2.78 / 1000.0)))
  }

  /** With the longest integration, ATIME = 255, the code as written has no
      result, while the integration time is well defined. */
  lemma LongestIntegrationLost(raw: U16, gain: nat, astep: U16)
    requires gain < 32
    ensures BasicCountsAsWritten(raw, gain, 0xFF, astep) == None
    ensures BasicCounts(raw, gain, 0xFF, astep) * GainValue(gain) * IntegrationTimeMs(0xFF, astep)
         == raw as real
  {
  }
}
