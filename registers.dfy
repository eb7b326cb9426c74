/** The AS7343 register map and the driver's symbolic constants.

    Every register is named once by the datatype `Reg`; `Address` gives its
    literal hardware address.  `RegisterAt` inverts `Address`, which proves
    that no two names share an address. */
module Registers {

  type Byte = bv8

  /** An address on the device's 8-bit register bus. */
  type Addr = a: int | 0 <= a < 256

  /** One of the 18 slots of a bulk channel read. */
  type Slot = i: int | 0 <= i < 18

  const I2C_ADDR_DEFAULT: Byte := 0x39
  const CHIP_ID: Byte := 0x81

  const REG_AUXID: Addr := 0x58
  const REG_REVID: Addr := 0x59
  const REG_ID: Addr := 0x5A
  const REG_CFG12: Addr := 0x66
  const REG_ENABLE: Addr := 0x80
  const REG_ATIME: Addr := 0x81
  const REG_WTIME: Addr := 0x83
  const REG_SP_TH_LOW_LSB: Addr := 0x84
  const REG_SP_TH_LOW_MSB: Addr := 0x85
  const REG_SP_TH_HIGH_LSB: Addr := 0x86
  const REG_SP_TH_HIGH_MSB: Addr := 0x87
  const REG_STATUS: Addr := 0x93
  const REG_ASTATUS: Addr := 0x94
  const REG_STATUS_2: Addr := 0x90
  const REG_STATUS_3: Addr := 0x91
  const REG_STATUS_5: Addr := 0xBB
  const REG_STATUS_4: Addr := 0xBC
  const REG_CFG0: Addr := 0xBF
  const REG_CFG1: Addr := 0xC6
  const REG_CFG3: Addr := 0xC7
  const REG_CFG6: Addr := 0xF5
  const REG_CFG8: Addr := 0xC9
  const REG_CFG9: Addr := 0xCA
  const REG_CFG10: Addr := 0x65
  const REG_PERS: Addr := 0xCF
  const REG_GPIO: Addr := 0x6B
  const REG_ASTEP_LOW: Addr := 0xD4
  const REG_ASTEP_HIGH: Addr := 0xD5
  const REG_CFG20: Addr := 0xD6
  const REG_LED: Addr := 0xCD
  const REG_AGC_GAIN_MAX: Addr := 0xD7
  const REG_AZ_CONFIG: Addr := 0xDE
  const REG_FD_TIME_1: Addr := 0xE0
  const REG_FD_TIME_2: Addr := 0xE2
  const REG_FD_CFG0: Addr := 0xDF
  const REG_FD_STATUS: Addr := 0xE3
  const REG_INTENAB: Addr := 0xF9
  const REG_CONTROL: Addr := 0xFA
  const REG_FIFO_MAP: Addr := 0xFC
  const REG_FIFO_LVL: Addr := 0xFD
  const REG_FDATA_LOW: Addr := 0xFE
  const REG_FDATA_HIGH: Addr := 0xFF

  /** The low and high data registers of channels 0 to 17, as literal addresses. */
  const CH_DATA_L: seq<Addr> :=
    [0x95, 0x97, 0x99, 0x9B, 0x9D, 0x9F, 0xA1, 0xA3, 0xA5,
     0xA7, 0xA9, 0xAB, 0xAD, 0xAF, 0xB1, 0xB3, 0xB5, 0xB7]
  const CH_DATA_H: seq<Addr> :=
    [0x96, 0x98, 0x9A, 0x9C, 0x9E, 0xA0, 0xA2, 0xA4, 0xA6,
     0xA8, 0xAA, 0xAC, 0xAE, 0xB0, 0xB2, 0xB4, 0xB6, 0xB8]
  const REG_CH0_DATA_L: Addr := 0x95

  const AUTO_SMUX_6CHAN: Byte := 0
  const AUTO_SMUX_12CHAN: Byte := 1
  const AUTO_SMUX_18CHAN: Byte := 3

  const GAIN_0_5X: Byte := 0
  const GAIN_1X: Byte := 1
  const GAIN_2X: Byte := 2
  const GAIN_4X: Byte := 3
  const GAIN_8X: Byte := 4
  const GAIN_16X: Byte := 5
  const GAIN_32X: Byte := 6
  const GAIN_64X: Byte := 7
  const GAIN_128X: Byte := 8
  const GAIN_256X: Byte := 9
  const GAIN_512X: Byte := 10
  const GAIN_1024X: Byte := 11
  const GAIN_2048X: Byte := 12

  const LED_STRENGTH_4MA: Byte := 0
  const LED_STRENGTH_6MA: Byte := 1
  const LED_STRENGTH_8MA: Byte := 2
  const LED_STRENGTH_10MA: Byte := 3
  const LED_STRENGTH_12MA: Byte := 4

  /** Every register the driver names. */
  datatype Reg =
    | AuxId | RevId | Id | Cfg12 | Enable | Atime | Wtime
    | SpThLowLsb | SpThLowMsb | SpThHighLsb | SpThHighMsb
    | Status | Astatus | Status2 | Status3 | Status5 | Status4
    | Cfg0 | Cfg1 | Cfg3 | Cfg6 | Cfg8 | Cfg9 | Cfg10 | Pers | Gpio
    | AstepLow | AstepHigh | Cfg20 | Led | AgcGainMax | AzConfig
    | FdTime1 | FdTime2 | FdCfg0 | FdStatus | IntEnab | Control
    | FifoMap | FifoLvl | FDataLow | FDataHigh
    | ChDataL(low: Slot)
    | ChDataH(high: Slot)

  function Address(r: Reg): Addr
  {
    match r
    case AuxId => REG_AUXID
    case RevId => REG_REVID
    case Id => REG_ID
    case Cfg12 => REG_CFG12
    case Enable => REG_ENABLE
    case Atime => REG_ATIME
    case Wtime => REG_WTIME
    case SpThLowLsb => REG_SP_TH_LOW_LSB
    case SpThLowMsb => REG_SP_TH_LOW_MSB
    case SpThHighLsb => REG_SP_TH_HIGH_LSB
    case SpThHighMsb => REG_SP_TH_HIGH_MSB
    case Status => REG_STATUS
    case Astatus => REG_ASTATUS
    case Status2 => REG_STATUS_2
    case Status3 => REG_STATUS_3
    case Status5 => REG_STATUS_5
    case Status4 => REG_STATUS_4
    case Cfg0 => REG_CFG0
    case Cfg1 => REG_CFG1
    case Cfg3 => REG_CFG3
    case Cfg6 => REG_CFG6
    case Cfg8 => REG_CFG8
    case Cfg9 => REG_CFG9
    case Cfg10 => REG_CFG10
    case Pers => REG_PERS
    case Gpio => REG_GPIO
    case AstepLow => REG_ASTEP_LOW
    case AstepHigh => REG_ASTEP_HIGH
    case Cfg20 => REG_CFG20
    case Led => REG_LED
    case AgcGainMax => REG_AGC_GAIN_MAX
    case AzConfig => REG_AZ_CONFIG
    case FdTime1 => REG_FD_TIME_1
    case FdTime2 => REG_FD_TIME_2
    case FdCfg0 => REG_FD_CFG0
    case FdStatus => REG_FD_STATUS
    case IntEnab => REG_INTENAB
    case Control => REG_CONTROL
    case FifoMap => REG_FIFO_MAP
    case FifoLvl => REG_FIFO_LVL
    case FDataLow => REG_FDATA_LOW
    case FDataHigh => REG_FDATA_HIGH
    case ChDataL(i) => CH_DATA_L[i]
    case ChDataH(i) => CH_DATA_H[i]
  }

  /** The register named at address `a`, if any: the inverse of `Address`. */
  function RegisterAt(a: Addr): (r: Option<Reg>)
  {
    if 0x95 <= a <= 0xB8 then
      (if (a - 0x95) % 2 == 0 then Some(ChDataL((a - 0x95) / 2)) else Some(ChDataH((a - 0x95) / 2)))
    else if a == REG_AUXID then Some(AuxId)
    else if a == REG_REVID then Some(RevId)
    else if a == REG_ID then Some(Id)
    else if a == REG_CFG12 then Some(Cfg12)
    else if a == REG_ENABLE then Some(Enable)
    else if a == REG_ATIME then Some(Atime)
    else if a == REG_WTIME then Some(Wtime)
    else if a == REG_SP_TH_LOW_LSB then Some(SpThLowLsb)
    else if a == REG_SP_TH_LOW_MSB then Some(SpThLowMsb)
    else if a == REG_SP_TH_HIGH_LSB then Some(SpThHighLsb)
    else if a == REG_SP_TH_HIGH_MSB then Some(SpThHighMsb)
    else if a == REG_STATUS then Some(Status)
    else if a == REG_ASTATUS then Some(Astatus)
    else if a == REG_STATUS_2 then Some(Status2)
    else if a == REG_STATUS_3 then Some(Status3)
    else if a == REG_STATUS_5 then Some(Status5)
    else if a == REG_STATUS_4 then Some(Status4)
    else if a == REG_CFG0 then Some(Cfg0)
    else if a == REG_CFG1 then Some(Cfg1)
    else if a == REG_CFG3 then Some(Cfg3)
    else if a == REG_CFG6 then Some(Cfg6)
    else if a == REG_CFG8 then Some(Cfg8)
    else if a == REG_CFG9 then Some(Cfg9)
    else if a == REG_CFG10 then Some(Cfg10)
    else if a == REG_PERS then Some(Pers)
    else if a == REG_GPIO then Some(Gpio)
    else if a == REG_ASTEP_LOW then Some(AstepLow)
    else if a == REG_ASTEP_HIGH then Some(AstepHigh)
    else if a == REG_CFG20 then Some(Cfg20)
    else if a == REG_LED then Some(Led)
    else if a == REG_AGC_GAIN_MAX then Some(AgcGainMax)
    else if a == REG_AZ_CONFIG then Some(AzConfig)
    else if a == REG_FD_TIME_1 then Some(FdTime1)
    else if a == REG_FD_TIME_2 then Some(FdTime2)
    else if a == REG_FD_CFG0 then Some(FdCfg0)
    else if a == REG_FD_STATUS then Some(FdStatus)
    else if a == REG_INTENAB then Some(IntEnab)
    else if a == REG_CONTROL then Some(Control)
    else if a == REG_FIFO_MAP then Some(FifoMap)
    else if a == REG_FIFO_LVL then Some(FifoLvl)
    else if a == REG_FDATA_LOW then Some(FDataLow)
    else if a == REG_FDATA_HIGH then Some(FDataHigh)
    else None
  }

  datatype Option<T> = None | Some(value: T)

  /** Channel `c`'s data registers sit at `0x95 + 2c` (low) and `0x96 + 2c`
      (high): the arithmetic `read_channel` relies on agrees with the table. */
  lemma ChannelAddresses(c: Slot)
    ensures CH_DATA_L[c] == REG_CH0_DATA_L + 2 * c
    ensures CH_DATA_H[c] == REG_CH0_DATA_L + 2 * c + 1
  {
  }

  /** Each channel data register is found again at its own address. */
  lemma ChannelRegistersAt(c: Slot)
    ensures RegisterAt(Address(ChDataL(c))) == Some(ChDataL(c))
    ensures RegisterAt(Address(ChDataH(c))) == Some(ChDataH(c))
  {
    ChannelAddresses(c);
    LowDataRegisterAt(c);
    HighDataRegisterAt(c);
  }

  lemma LowDataRegisterAt(c: Slot)
    ensures RegisterAt(REG_CH0_DATA_L + 2 * c) == Some(ChDataL(c))
  {
    ChannelOffset(2 * c, c);
  }

  lemma HighDataRegisterAt(c: Slot)
    ensures RegisterAt(REG_CH0_DATA_L + 2 * c + 1) == Some(ChDataH(c))
  {
    ChannelOffset(2 * c + 1, c);
  }

  lemma ChannelOffset(d: int, c: Slot)
    requires d == 2 * c || d == 2 * c + 1
    ensures d / 2 == c && (d % 2 == 0 <==> d == 2 * c)
  {
  }

  /** Named registers, part 1: each is found again at its own address. */
  lemma NamedRegistersAt1()
    ensures RegisterAt(REG_AUXID) == Some(AuxId)
    ensures RegisterAt(REG_REVID) == Some(RevId)
    ensures RegisterAt(REG_ID) == Some(Id)
    ensures RegisterAt(REG_CFG12) == Some(Cfg12)
    ensures RegisterAt(REG_ENABLE) == Some(Enable)
    ensures RegisterAt(REG_ATIME) == Some(Atime)
    ensures RegisterAt(REG_WTIME) == Some(Wtime)
    ensures RegisterAt(REG_SP_TH_LOW_LSB) == Some(SpThLowLsb)
  {
  }

  /** Named registers, part 2: each is found again at its own address. */
  lemma NamedRegistersAt2()
    ensures RegisterAt(REG_SP_TH_LOW_MSB) == Some(SpThLowMsb)
    ensures RegisterAt(REG_SP_TH_HIGH_LSB) == Some(SpThHighLsb)
    ensures RegisterAt(REG_SP_TH_HIGH_MSB) == Some(SpThHighMsb)
    ensures RegisterAt(REG_STATUS) == Some(Status)
    ensures RegisterAt(REG_ASTATUS) == Some(Astatus)
    ensures RegisterAt(REG_STATUS_2) == Some(Status2)
    ensures RegisterAt(REG_STATUS_3) == Some(Status3)
    ensures RegisterAt(REG_STATUS_5) == Some(Status5)
  {
  }

  /** Named registers, part 3: each is found again at its own address. */
  lemma NamedRegistersAt3()
    ensures RegisterAt(REG_STATUS_4) == Some(Status4)
    ensures RegisterAt(REG_CFG0) == Some(Cfg0)
    ensures RegisterAt(REG_CFG1) == Some(Cfg1)
    ensures RegisterAt(REG_CFG3) == Some(Cfg3)
    ensures RegisterAt(REG_CFG6) == Some(Cfg6)
    ensures RegisterAt(REG_CFG8) == Some(Cfg8)
    ensures RegisterAt(REG_CFG9) == Some(Cfg9)
    ensures RegisterAt(REG_CFG10) == Some(Cfg10)
  {
  }

  /** Named registers, part 4: each is found again at its own address. */
  lemma NamedRegistersAt4()
    ensures RegisterAt(REG_PERS) == Some(Pers)
    ensures RegisterAt(REG_GPIO) == Some(Gpio)
    ensures RegisterAt(REG_ASTEP_LOW) == Some(AstepLow)
    ensures RegisterAt(REG_ASTEP_HIGH) == Some(AstepHigh)
    ensures RegisterAt(REG_CFG20) == Some(Cfg20)
    ensures RegisterAt(REG_LED) == Some(Led)
    ensures RegisterAt(REG_AGC_GAIN_MAX) == Some(AgcGainMax)
    ensures RegisterAt(REG_AZ_CONFIG) == Some(AzConfig)
  {
  }

  /** Named registers, part 5: each is found again at its own address. */
  lemma NamedRegistersAt5()
    ensures RegisterAt(REG_FD_TIME_1) == Some(FdTime1)
    ensures RegisterAt(REG_FD_TIME_2) == Some(FdTime2)
    ensures RegisterAt(REG_FD_CFG0) == Some(FdCfg0)
    ensures RegisterAt(REG_FD_STATUS) == Some(FdStatus)
    ensures RegisterAt(REG_INTENAB) == Some(IntEnab)
    ensures RegisterAt(REG_CONTROL) == Some(Control)
    ensures RegisterAt(REG_FIFO_MAP) == Some(FifoMap)
    ensures RegisterAt(REG_FIFO_LVL) == Some(FifoLvl)
  {
  }

  /** Named registers, part 6: each is found again at its own address. */
  lemma NamedRegistersAt6()
    ensures RegisterAt(REG_FDATA_LOW) == Some(FDataLow)
    ensures RegisterAt(REG_FDATA_HIGH) == Some(FDataHigh)
  {
  }

  /** The 18 channel slots of a bulk read, in the device's fixed order. */
  datatype Channel =
    | FzNm450 | FyNm555 | FxlNm600 | NirNm855 | Clear1 | Fd1
    | F2Nm425 | F3Nm475 | F4Nm515 | F6Nm640 | Clear0 | Fd0
    | F1Nm405 | F5Nm550 | F7Nm690 | F8Nm745 | Clear | Fd

  /** The slot of `c` in the result of a bulk read. */
  function SlotOf(c: Channel): Slot
  {
    match c
    case FzNm450 => 0
    case FyNm555 => 1
    case FxlNm600 => 2
    case NirNm855 => 3
    case Clear1 => 4
    case Fd1 => 5
    case F2Nm425 => 6
    case F3Nm475 => 7
    case F4Nm515 => 8
    case F6Nm640 => 9
    case Clear0 => 10
    case Fd0 => 11
    case F1Nm405 => 12
    case F5Nm550 => 13
    case F7Nm690 => 14
    case F8Nm745 => 15
    case Clear => 16
    case Fd => 17
  }

  /** The channel measured in slot `i`. */
  function ChannelIn(i: Slot): (c: Channel)
    ensures SlotOf(c) == i
  {
    [FzNm450, FyNm555, FxlNm600, NirNm855, Clear1, Fd1,
     F2Nm425, F3Nm475, F4Nm515, F6Nm640, Clear0, Fd0,
     F1Nm405, F5Nm550, F7Nm690, F8Nm745, Clear, Fd][i]
  }

  /** Distinct channels occupy distinct slots, and every slot has its channel. */
  lemma SlotsArePermutation(c1: Channel, c2: Channel)
    ensures SlotOf(c1) == SlotOf(c2) ==> c1 == c2
    ensures ChannelIn(SlotOf(c1)) == c1
  {
  }
}
