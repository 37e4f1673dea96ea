/**
 * The 12-bit sample packing of a packet payload: each 16-bit sample is masked
 * to 12 bits and stored as two bytes, the top nibble in the low half of the
 * first byte (upper half zero) and the low eight bits in the second.
 */
module Packing {

  /** Samples carried by one packet. */
  const SamplesPerPacket: nat := 32

  /** Bytes of packed payload per packet. */
  const PayloadBytes: nat := 64

  /** The sample truncated to the 12 bits the digitizer produces. */
  function Adc(s: bv16): (adc: bv16)
  {
    s & 0x0FFF
  }

  /** First byte of a packed sample: bits 8..11 in the low nibble. */
  function HighByte(s: bv16): (b: bv8)
  {
    ((Adc(s) >> 8) & 0x0F) as bv8
  }

  /** Second byte of a packed sample: bits 0..7. */
  function LowByte(s: bv16): (b: bv8)
  {
    (Adc(s) & 0xFF) as bv8
  }

  /** The payload for a run of samples, two bytes per sample in order. */
  function PackSamples(ws: seq<bv16>): (bs: seq<bv8>)
  {
    if ws == [] then [] else [HighByte(ws[0]), LowByte(ws[0])] + PackSamples(ws[1..])
  }

  /** The 12-bit value a reader rebuilds from a byte pair: first * 256 + second. */
  function Combine(hi: bv8, lo: bv8): (s: bv16)
  {
    (hi as bv16) * 256 + lo as bv16
  }

  /** Decodes a payload back to samples, one per byte pair. */
  function UnpackSamples(bs: seq<bv8>): (ws: seq<bv16>)
    requires |bs| % 2 == 0
  {
    if bs == [] then [] else [Combine(bs[0], bs[1])] + UnpackSamples(bs[2..])
  }

  /** Every sample truncated to 12 bits. */
  function Truncated(ws: seq<bv16>): (r: seq<bv16>)
    ensures |r| == |ws|
  {
    seq(|ws|, k requires 0 <= k < |ws| => Adc(ws[k]))
  }

  /**
   * One sample's bytes: the first holds only a nibble, and first * 256 +
   * second gives back the 12-bit value.
   */
  lemma SampleBytes(s: bv16)
    ensures HighByte(s) < 16
    ensures Combine(HighByte(s), LowByte(s)) == Adc(s)
  {
  }

  /** Byte 2i and byte 2i+1 of the payload come from sample i. */
  lemma {:induction false} PackAt(ws: seq<bv16>, i: nat)
    requires i < |ws|
    ensures |PackSamples(ws)| == 2 * |ws|
    ensures PackSamples(ws)[2 * i] == HighByte(ws[i])
    ensures PackSamples(ws)[2 * i + 1] == LowByte(ws[i])
  {
    if i > 0 {
      PackAt(ws[1..], i - 1);
    } else if |ws| > 1 {
      PackAt(ws[1..], 0);
    }
  }

  /** Unpacking a packed payload yields the samples truncated to 12 bits. */
  lemma {:induction false} PackRoundTrip(ws: seq<bv16>)
    ensures |PackSamples(ws)| == 2 * |ws|
    ensures UnpackSamples(PackSamples(ws)) == Truncated(ws)
  {
    if ws != [] {
      PackRoundTrip(ws[1..]);
      SampleBytes(ws[0]);
      var p := PackSamples(ws);
      assert p[2..] == PackSamples(ws[1..]);
      assert Truncated(ws) == [Adc(ws[0])] + Truncated(ws[1..]);
    }
  }

  /** Masking before packing changes nothing: packing already keeps 12 bits. */
  lemma {:induction false} PackIgnoresHighBits(ws: seq<bv16>)
    ensures PackSamples(Truncated(ws)) == PackSamples(ws)
  {
    if ws != [] {
      PackIgnoresHighBits(ws[1..]);
      assert Truncated(ws)[1..] == Truncated(ws[1..]);
    }
  }

  /** A constant run of samples decodes to the constant truncated to 12 bits. */
  lemma ConstantDecodes(ws: seq<bv16>, v: bv16)
    requires forall k :: 0 <= k < |ws| ==> ws[k] == v
    ensures |PackSamples(ws)| == 2 * |ws|
    ensures UnpackSamples(PackSamples(ws)) == seq(|ws|, _ => Adc(v))
  {
    PackRoundTrip(ws);
  }
}
