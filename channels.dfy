/** Decoding the 36 data bytes of a bulk read into the 18 channel counts.
    Channel `i`'s low byte comes first, each pair read as a little-endian
    16-bit count. */
module Channels {
  import opened Registers
  import opened Fields

  const CHANNEL_COUNT := 18
  const DATA_BYTES := 2 * CHANNEL_COUNT

  /** The 18 counts `read_all_channels` builds from the bytes read at 0x95. */
  function DecodeChannels(bytes: seq<Byte>): (counts: seq<bv16>)
    requires |bytes| == DATA_BYTES
    ensures |counts| == CHANNEL_COUNT
  {
    seq(CHANNEL_COUNT, i requires 0 <= i < CHANNEL_COUNT => Combine(bytes[2 * i + 1], bytes[2 * i]))
  }

  /** Slot `i` of the decoding is the little-endian value of bytes `2i` and `2i + 1`. */
  lemma DecodeValues(bytes: seq<Byte>)
    requires |bytes| == DATA_BYTES
    ensures forall i :: 0 <= i < CHANNEL_COUNT ==>
              DecodeChannels(bytes)[i] as int == bytes[2 * i] as int + 256 * bytes[2 * i + 1] as int
  {
    forall i | 0 <= i < CHANNEL_COUNT
      ensures DecodeChannels(bytes)[i] as int == bytes[2 * i] as int + 256 * bytes[2 * i + 1] as int
    {
      CombineValue(bytes[2 * i + 1], bytes[2 * i]);
      assert DecodeChannels(bytes)[i] == Combine(bytes[2 * i + 1], bytes[2 * i]);
    }
  }

  /** The bytes a device holding `counts` presents: low byte, then high byte, per channel. */
  function EncodeChannels(counts: seq<bv16>): (bytes: seq<Byte>)
    requires |counts| == CHANNEL_COUNT
    ensures |bytes| == DATA_BYTES
  {
    seq(DATA_BYTES, j requires 0 <= j < DATA_BYTES =>
      if j % 2 == 0 then LowByte(counts[j / 2]) else HighByte(counts[j / 2]))
  }

  /** Decoding the encoding of any 18 counts gives them back unchanged. */
  lemma DecodeEncode(counts: seq<bv16>)
    requires |counts| == CHANNEL_COUNT
    ensures DecodeChannels(EncodeChannels(counts)) == counts
  {
    var bytes := EncodeChannels(counts);
    forall i | 0 <= i < CHANNEL_COUNT
      ensures DecodeChannels(bytes)[i] == counts[i]
    {
      assert bytes[2 * i] == LowByte(counts[i]);
      assert bytes[2 * i + 1] == HighByte(counts[i]);
      SplitCombine(counts[i]);
    }
  }

  /** Every byte pattern is the encoding of the counts it decodes to: no
      two byte patterns decode to the same counts. */
  lemma EncodeDecode(bytes: seq<Byte>)
    requires |bytes| == DATA_BYTES
    ensures EncodeChannels(DecodeChannels(bytes)) == bytes
  {
    var counts := DecodeChannels(bytes);
    forall j | 0 <= j < DATA_BYTES
      ensures EncodeChannels(counts)[j] == bytes[j]
    {
      var i := j / 2;
      var v := Combine(bytes[2 * i + 1], bytes[2 * i]);
      assert counts[i] == v;
      if j % 2 == 0 {
        assert j == 2 * i && EncodeChannels(counts)[j] == LowByte(v);
      } else {
        assert j == 2 * i + 1 && EncodeChannels(counts)[j] == HighByte(v);
      }
    }
  }
}
