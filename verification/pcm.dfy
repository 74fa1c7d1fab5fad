/**
 16-bit PCM as bytes, and the external sinks that receive them.

 Every C++ writer in the pipeline hands `reinterpret_cast<const char*>` of an
 `int16_t` array to a file or to the message bus; on the little-endian target
 each sample becomes its two's-complement low byte followed by its high byte.
 */
module Pcm {
  import opened Common

  /** The two bytes an `int16_t` occupies in memory on a little-endian host. */
  function SampleBytes(x: Int16): (bs: seq<Byte>)
    ensures |bs| == 2
    ensures bs[0] as int + 256 * (bs[1] as int) == (if x < 0 then x + TwoTo16 else x)
  {
    var u := if x < 0 then x + TwoTo16 else x;
    [u % 256, u / 256]
  }

  /** Reads a little-endian two's-complement 16-bit value. */
  function DecodeSample(lo: Byte, hi: Byte): (x: Int16)
    ensures (if x < 0 then x + TwoTo16 else x) == lo as int + 256 * (hi as int)
  {
    var u := lo as int + 256 * (hi as int);
    if u >= 32768 then u - TwoTo16 else u
  }

  /** Decoding undoes encoding. */
  lemma DecodeSampleBytes(x: Int16)
    ensures DecodeSample(SampleBytes(x)[0], SampleBytes(x)[1]) == x
  {
  }

  /** Encoding undoes decoding: every pair of bytes is the image of exactly one sample. */
  lemma SampleBytesDecode(lo: Byte, hi: Byte)
    ensures SampleBytes(DecodeSample(lo, hi)) == [lo, hi]
  {
    var u := lo as int + 256 * (hi as int);
    assert u % 256 == lo && u / 256 == hi;
  }

  /** The byte image of an `int16_t` array: sample k occupies bytes 2k and 2k+1. */
  function SamplesBytes(xs: seq<Int16>): (bs: seq<Byte>)
    ensures |bs| == 2 * |xs|
    ensures forall k :: 0 <= k < |xs| ==> bs[2 * k] == SampleBytes(xs[k])[0] && bs[2 * k + 1] == SampleBytes(xs[k])[1]
  {
    if |xs| == 0 then [] else SamplesBytes(xs[..|xs| - 1]) + SampleBytes(xs[|xs| - 1])
  }

  /** The byte image of a concatenation is the concatenation of the byte images. */
  lemma {:induction false} SamplesBytesAppend(xs: seq<Int16>, ys: seq<Int16>)
    ensures SamplesBytes(xs + ys) == SamplesBytes(xs) + SamplesBytes(ys)
    decreases |ys|
  {
    if |ys| == 0 {
      assert xs + ys == xs;
    } else {
      var n := |ys|;
      assert (xs + ys)[..|xs + ys| - 1] == xs + ys[..n - 1];
      assert (xs + ys)[|xs + ys| - 1] == ys[n - 1];
      calc {
        SamplesBytes(xs + ys);
        SamplesBytes(xs + ys[..n - 1]) + SampleBytes(ys[n - 1]);
        { SamplesBytesAppend(xs, ys[..n - 1]); }
        SamplesBytes(xs) + SamplesBytes(ys[..n - 1]) + SampleBytes(ys[n - 1]);
        SamplesBytes(xs) + SamplesBytes(ys);
      }
    }
  }

  /** What the pipeline hands to its external collaborators. */
  datatype SinkAction =
    | FileWrite(file: nat, data: seq<Byte>)     // `ofstream::write` on the file of one channel
    | Publish(topic: string, payload: seq<Byte>) // an MQTT message with QoS 1
}
