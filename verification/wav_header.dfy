/**
 `write_wav_header` of `val/audio_processor.cpp`: the 44-byte canonical header
 of a RIFF WAVE file holding PCM samples, as laid out in chapter 3 of the
 IBM/Microsoft Multimedia Programming Interface and Data Specifications 1.0:
 the `RIFF` chunk with form type `WAVE`, a 16-byte `fmt ` chunk (format tag 1 =
 PCM, channels, sample rate, average bytes per second, block alignment, bits
 per sample), and the header of the `data` chunk. Integers are little-endian,
 as the target lays them out in memory.
 */
module WavHeader {
  import opened Common
  import Pcm

  function LE16(x: int): (bs: seq<Byte>)
    requires 0 <= x < TwoTo16
    ensures |bs| == 2 && bs[0] as int + 256 * (bs[1] as int) == x
  {
    [x % 256, x / 256]
  }

  function LE32(x: int): (bs: seq<Byte>)
    requires 0 <= x < TwoTo32
    ensures |bs| == 4
    ensures bs[0] as int + 256 * (bs[1] as int) + 65536 * (bs[2] as int) + 16777216 * (bs[3] as int) == x
  {
    var lo := LE16(x % TwoTo16);
    var hi := LE16(x / TwoTo16);
    lo + hi
  }

  /** A little-endian field read back from where it was written. */
  lemma ReadLE16At(h: seq<Byte>, at: nat, x: int)
    requires 0 <= x < TwoTo16 && at + 2 <= |h| && h[at..at + 2] == LE16(x)
    ensures ReadLE16(h, at) == x
  {
    assert h[at] == h[at..at + 2][0] && h[at + 1] == h[at..at + 2][1];
  }

  lemma ReadLE32At(h: seq<Byte>, at: nat, x: int)
    requires 0 <= x < TwoTo32 && at + 4 <= |h| && h[at..at + 4] == LE32(x)
    ensures ReadLE32(h, at) == x
  {
    var w := h[at..at + 4];
    assert h[at] == w[0] && h[at + 1] == w[1] && h[at + 2] == w[2] && h[at + 3] == w[3];
  }

  function ReadLE16(bs: seq<Byte>, at: nat): int
    requires at + 2 <= |bs|
  {
    bs[at] as int + 256 * (bs[at + 1] as int)
  }

  function ReadLE32(bs: seq<Byte>, at: nat): int
    requires at + 4 <= |bs|
  {
    bs[at] as int + 256 * (bs[at + 1] as int) + 65536 * (bs[at + 2] as int) + 16777216 * (bs[at + 3] as int)
  }

  /** A four-character chunk tag as bytes. */
  function Tag(s: string): (bs: seq<Byte>)
    requires |s| == 4 && forall i :: 0 <= i < 4 ==> s[i] as int < 256
    ensures |bs| == 4
  {
    seq(4, i requires 0 <= i < 4 => s[i] as int)
  }

  const RiffTag: seq<Byte> := Tag("RIFF")
  const WaveTag: seq<Byte> := Tag("WAVE")
  const FmtTag: seq<Byte> := Tag("fmt ")
  const DataTag: seq<Byte> := Tag("data")

  /** The values `write_wav_header` places in the header. */
  datatype Fields = Fields(
    chunkSize: int, fmtSize: int, audioFormat: int, numChannels: int,
    sampleRate: int, byteRate: int, blockAlign: int, bitsPerSample: int, dataSize: int)

  /** The fields as computed in the source: `byte_rate` in `uint32_t` arithmetic,
      `block_align` in `int` arithmetic then stored in a `uint16_t`, `chunk_size` in `uint32_t`. */
  function FieldsOf(sampleRate: int, bitsPerSample: int, numChannels: int, dataSize: int): (f: Fields)
    requires 0 <= sampleRate < TwoTo32 && 0 <= dataSize < TwoTo32
    requires 0 <= bitsPerSample < TwoTo16 && 0 <= numChannels < TwoTo16
    ensures Representable(f)
  {
    Fields(U32(36 + dataSize), 16, 1, numChannels, sampleRate,
           U32(U32(sampleRate * numChannels) * bitsPerSample) / 8,
           U16(numChannels * bitsPerSample / 8), bitsPerSample, dataSize)
  }

  /** Every field fits the width the header gives it. */
  predicate Representable(f: Fields)
  {
    0 <= f.chunkSize < TwoTo32 && 0 <= f.fmtSize < TwoTo32 && 0 <= f.audioFormat < TwoTo16
    && 0 <= f.numChannels < TwoTo16 && 0 <= f.sampleRate < TwoTo32 && 0 <= f.byteRate < TwoTo32
    && 0 <= f.blockAlign < TwoTo16 && 0 <= f.bitsPerSample < TwoTo16 && 0 <= f.dataSize < TwoTo32
  }

  /** The `RIFF` chunk header and form type: bytes 0 to 11. */
  function RiffPart(f: Fields): (bs: seq<Byte>)
    requires Representable(f)
    ensures |bs| == 12
  {
    RiffTag + LE32(f.chunkSize) + WaveTag
  }

  /** The `fmt ` chunk: bytes 12 to 35. */
  function FmtPart(f: Fields): (bs: seq<Byte>)
    requires Representable(f)
    ensures |bs| == 24
  {
    FmtTag + LE32(f.fmtSize) + FormatBody(f)
  }

  /** The 16 bytes of the `fmt ` chunk's body. */
  function FormatBody(f: Fields): (bs: seq<Byte>)
    requires Representable(f)
    ensures |bs| == 16
  {
    LE16(f.audioFormat) + LE16(f.numChannels) + LE32(f.sampleRate)
    + LE32(f.byteRate) + LE16(f.blockAlign) + LE16(f.bitsPerSample)
  }

  /** The `data` chunk header: bytes 36 to 43. */
  function DataPart(f: Fields): (bs: seq<Byte>)
    requires Representable(f)
    ensures |bs| == 8
  {
    DataTag + LE32(f.dataSize)
  }

  function Serialize(f: Fields): (h: seq<Byte>)
    requires Representable(f)
    ensures |h| == 44
  {
    RiffPart(f) + FmtPart(f) + DataPart(f)
  }

  /** The 44 bytes `write_wav_header` writes at offset 0. */
  function Header(sampleRate: int, bitsPerSample: int, numChannels: int, dataSize: int): (h: seq<Byte>)
    requires 0 <= sampleRate < TwoTo32 && 0 <= dataSize < TwoTo32
    requires 0 <= bitsPerSample < TwoTo16 && 0 <= numChannels < TwoTo16
    ensures |h| == 44
  {
    Serialize(FieldsOf(sampleRate, bitsPerSample, numChannels, dataSize))
  }

  /** A reader of the canonical 44-byte header: checks the size and the tags, and reads the fields. */
  function Parse(h: seq<Byte>): Option<Fields>
  {
    if |h| != 44 || h[0..4] != RiffTag || h[8..12] != WaveTag || h[12..16] != FmtTag || h[36..40] != DataTag
    then None
    else Some(Fields(ReadLE32(h, 4), ReadLE32(h, 16), ReadLE16(h, 20), ReadLE16(h, 22), ReadLE32(h, 24),
                     ReadLE32(h, 28), ReadLE16(h, 32), ReadLE16(h, 34), ReadLE32(h, 40)))
  }

  /** Reading inside the right operand of a concatenation. */
  lemma ReadShift(a: seq<Byte>, b: seq<Byte>, at: nat)
    ensures at + 2 <= |b| ==> ReadLE16(a + b, |a| + at) == ReadLE16(b, at)
    ensures at + 4 <= |b| ==> ReadLE32(a + b, |a| + at) == ReadLE32(b, at)
  {
  }

  lemma FormatBodyReads(f: Fields)
    requires Representable(f)
    ensures var b := FormatBody(f);
      ReadLE16(b, 0) == f.audioFormat && ReadLE16(b, 2) == f.numChannels && ReadLE32(b, 4) == f.sampleRate
      && ReadLE32(b, 8) == f.byteRate && ReadLE16(b, 12) == f.blockAlign && ReadLE16(b, 14) == f.bitsPerSample
  {
    var b := FormatBody(f);
    assert b[0..2] == LE16(f.audioFormat) && b[2..4] == LE16(f.numChannels) && b[4..8] == LE32(f.sampleRate);
    assert b[8..12] == LE32(f.byteRate) && b[12..14] == LE16(f.blockAlign) && b[14..16] == LE16(f.bitsPerSample);
    ReadLE16At(b, 0, f.audioFormat);
    ReadLE16At(b, 2, f.numChannels);
    ReadLE32At(b, 4, f.sampleRate);
    ReadLE32At(b, 8, f.byteRate);
    ReadLE16At(b, 12, f.blockAlign);
    ReadLE16At(b, 14, f.bitsPerSample);
  }

  lemma FmtPartReads(f: Fields)
    requires Representable(f)
    ensures var p := FmtPart(f);
      p[0..4] == FmtTag && ReadLE32(p, 4) == f.fmtSize
      && ReadLE16(p, 8) == f.audioFormat && ReadLE16(p, 10) == f.numChannels && ReadLE32(p, 12) == f.sampleRate
      && ReadLE32(p, 16) == f.byteRate && ReadLE16(p, 20) == f.blockAlign && ReadLE16(p, 22) == f.bitsPerSample
  {
    var p := FmtPart(f);
    var a := FmtTag + LE32(f.fmtSize);
    assert p == a + FormatBody(f);
    assert p[4..8] == LE32(f.fmtSize);
    ReadLE32At(p, 4, f.fmtSize);
    FormatBodyReads(f);
    ReadShift(a, FormatBody(f), 0);
    ReadShift(a, FormatBody(f), 2);
    ReadShift(a, FormatBody(f), 4);
    ReadShift(a, FormatBody(f), 8);
    ReadShift(a, FormatBody(f), 12);
    ReadShift(a, FormatBody(f), 14);
  }

  lemma SerializeTags(f: Fields)
    requires Representable(f)
    ensures var h := Serialize(f);
      h[0..4] == RiffTag && h[8..12] == WaveTag && h[12..16] == FmtTag && h[36..40] == DataTag
  {
    var h := Serialize(f);
    var r, m, d := RiffPart(f), FmtPart(f), DataPart(f);
    assert h[0..4] == r[0..4] == RiffTag;
    assert h[8..12] == r[8..12] == WaveTag;
    assert h[12..16] == m[0..4] == FmtTag;
    assert h[36..40] == d[0..4] == DataTag;
  }

  lemma SerializeRiffReads(f: Fields)
    requires Representable(f)
    ensures ReadLE32(Serialize(f), 4) == f.chunkSize
  {
    var h := Serialize(f);
    assert h[4..8] == RiffPart(f)[4..8] == LE32(f.chunkSize);
    ReadLE32At(h, 4, f.chunkSize);
  }

  lemma SerializeFmtReads(f: Fields)
    requires Representable(f)
    ensures var h := Serialize(f);
      ReadLE32(h, 16) == f.fmtSize && ReadLE16(h, 20) == f.audioFormat && ReadLE16(h, 22) == f.numChannels
      && ReadLE32(h, 24) == f.sampleRate && ReadLE32(h, 28) == f.byteRate
      && ReadLE16(h, 32) == f.blockAlign && ReadLE16(h, 34) == f.bitsPerSample
  {
    var r, m, d := RiffPart(f), FmtPart(f), DataPart(f);
    assert Serialize(f) == r + (m + d);
    FmtPartReads(f);
    ReadShift(m, d, 0);
    ReadShift(r, m + d, 4);
    ReadShift(r, m + d, 8);
    ReadShift(r, m + d, 10);
    ReadShift(r, m + d, 12);
    ReadShift(r, m + d, 16);
    ReadShift(r, m + d, 20);
    ReadShift(r, m + d, 22);
  }

  lemma SerializeDataReads(f: Fields)
    requires Representable(f)
    ensures ReadLE32(Serialize(f), 40) == f.dataSize
  {
    var d := DataPart(f);
    assert d[4..8] == LE32(f.dataSize);
    ReadLE32At(d, 4, f.dataSize);
    ReadShift(RiffPart(f) + FmtPart(f), d, 4);
  }

  /**
   The round trip: reading back a serialized header gives exactly the fields
   written, at the offsets the format prescribes, and the tags are in place.
   */
  lemma ParseSerialize(f: Fields)
    requires Representable(f)
    ensures Parse(Serialize(f)) == Some(f)
  {
    SerializeTags(f);
    SerializeRiffReads(f);
    SerializeFmtReads(f);
    SerializeDataReads(f);
  }

  /** The header `write_wav_header` writes reads back as the fields it computes. */
  lemma ParseHeader(sampleRate: int, bitsPerSample: int, numChannels: int, dataSize: int)
    requires 0 <= sampleRate < TwoTo32 && 0 <= dataSize < TwoTo32
    requires 0 <= bitsPerSample < TwoTo16 && 0 <= numChannels < TwoTo16
    ensures Parse(Header(sampleRate, bitsPerSample, numChannels, dataSize))
            == Some(FieldsOf(sampleRate, bitsPerSample, numChannels, dataSize))
  {
    ParseSerialize(FieldsOf(sampleRate, bitsPerSample, numChannels, dataSize));
  }

  /** The RIFF chunk size counts the 36 header bytes after it plus the payload. */
  lemma ChunkSizeCoversPayload(sampleRate: int, bitsPerSample: int, numChannels: int, dataSize: int)
    requires 0 <= sampleRate < TwoTo32 && 0 <= bitsPerSample < TwoTo16 && 0 <= numChannels < TwoTo16
    requires 0 <= dataSize < TwoTo32 - 36
    ensures FieldsOf(sampleRate, bitsPerSample, numChannels, dataSize).chunkSize == 44 - 8 + dataSize
  {
  }

  /** For whole-byte samples and no overflow, the average byte rate is the sample rate times the block alignment. */
  lemma ByteRateIsRateTimesAlign(sampleRate: nat, bitsPerSample: nat, numChannels: nat)
    requires sampleRate < TwoTo32 && bitsPerSample < TwoTo16 && numChannels < TwoTo16
    requires bitsPerSample % 8 == 0
    requires sampleRate * numChannels * bitsPerSample < TwoTo32 && numChannels * bitsPerSample < TwoTo16
    ensures var f := FieldsOf(sampleRate, bitsPerSample, numChannels, 0);
            f.byteRate == sampleRate * f.blockAlign
  {
    var bytes := bitsPerSample / 8;
    var sn := sampleRate * numChannels;
    var k := numChannels * bytes;
    WholeBytes(sampleRate, numChannels, bytes);
    assert numChannels * bitsPerSample / 8 == k;
    assert U16(numChannels * bitsPerSample / 8) == k;
    if bitsPerSample > 0 {
      MulBound(sampleRate, numChannels, bitsPerSample);
      assert U32(sn) == sn;
      assert U32(sn * bitsPerSample) / 8 == sampleRate * k;
    }
  }

  /** Scaling by whole bytes: `8 * bytes` bits per sample. */
  lemma WholeBytes(a: nat, b: nat, bytes: nat)
    ensures b * (8 * bytes) == 8 * (b * bytes)
    ensures a * b * (8 * bytes) == 8 * (a * (b * bytes))
  {
    var ab := a * b;
    assert ab * (8 * bytes) == 8 * (ab * bytes);
    assert ab * bytes == a * (b * bytes);
  }

  lemma MulBound(a: nat, b: nat, c: nat)
    requires a * b * c < TwoTo32
    ensures a * b < TwoTo32 || c == 0
  {
    if c > 0 {
      var ab := a * b;
      assert ab * c == ab * (c - 1) + ab;
    }
  }

  /**
   `data_size` of a mono 16-bit recording of `duration` seconds at `frequency`
   samples per second: `estimated_samples * bits_per_sample / 8`, each step in
   `uint32_t` (`val/audio_processor.cpp`).
   */
  function DataSize(frequency: nat, duration: int): (n: int)
    ensures 0 <= n < TwoTo32
  {
    U32(U32(frequency * duration) * 16) / 8
  }

  /** While nothing wraps, `data_size` is the byte count of the samples the recording is expected to hold. */
  lemma DataSizeIsSampleBytes(frequency: nat, duration: nat, samples: seq<Int16>)
    requires |samples| == frequency * duration && 16 * |samples| < TwoTo32
    ensures DataSize(frequency, duration) == |Pcm.SamplesBytes(samples)|
  {
    assert U32(frequency * duration) == |samples|;
    assert U32(|samples| * 16) == 16 * |samples|;
  }
}
