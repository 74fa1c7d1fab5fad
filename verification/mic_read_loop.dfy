/**
 The recording loop of `main` in `demos/simple_mic_read.cpp`. A buffer of
 `Channels()` rows of `SamplingRate() + NumberOfSamples()` samples is filled one
 `Read()` at a time; after every read each row's filled part is published over
 MQTT, and once a second's worth of samples is in, each row's filled part is
 appended to that channel's raw file and the buffer starts over.

 The `r`-th `Read()` is the parameter `at(r, s, c)` (sample `s` of channel
 `c`). The buffer is a stack array the program never clears; cells past the
 filled part are never read, so they start at zero here.
 */
module MicReadLoop {
  import opened Common
  import opened Pcm
  import Capture

  const TopicBase: string := "audio/channel_"

  type Reads = (nat, nat, nat) -> Int16

  /** The `n` samples of channel `c` delivered by read `r`. */
  function Row(at: Reads, r: nat, c: nat, n: nat): (xs: seq<Int16>)
    ensures |xs| == n
  {
    seq(n, s requires 0 <= s => at(r, s, c))
  }

  /** Channel `c` of reads `lo` .. `hi` - 1, in order. */
  function Rows(at: Reads, c: nat, lo: nat, hi: nat, n: nat): (xs: seq<Int16>)
    requires lo <= hi
    ensures |xs| == (hi - lo) * n
    decreases hi
  {
    if hi == lo then [] else Rows(at, c, lo, hi - 1, n) + Row(at, hi - 1, c, n)
  }

  /** Reads `a` .. `b` - 1 followed by reads `b` .. `d` - 1 are reads `a` .. `d` - 1. */
  lemma {:induction false} RowsSplit(at: Reads, c: nat, a: nat, b: nat, d: nat, n: nat)
    requires a <= b <= d
    ensures Rows(at, c, a, b, n) + Rows(at, c, b, d, n) == Rows(at, c, a, d, n)
    decreases d
  {
    if d > b {
      RowsSplit(at, c, a, b, d - 1, n);
    }
  }

  /** How many reads one pass of the `while (true)` loop takes: at least one, then until `SamplingRate()` samples are in. */
  function ReadsPerFlush(sr: nat, n: nat): nat
    requires n > 0
  {
    if sr <= n then 1 else Capture.BlocksNeeded(sr, n)
  }

  /** `ReadsPerFlush` is the least read count of at least one whose samples reach the sampling rate. */
  lemma ReadsPerFlushIsLeast(sr: nat, n: nat, m: nat)
    requires n > 0
    ensures (m >= 1 && m * n >= sr && (m == 1 || (m - 1) * n < sr)) <==> m == ReadsPerFlush(sr, n)
  {
    Capture.BlocksNeededIsLeast(sr, n, m);
    if sr > n {
      Capture.BlocksNeededIsLeast(sr, n, ReadsPerFlush(sr, n));
    } else if m >= 2 {
      Capture.MulMono(1, m - 1, n);
    }
  }

  /** With 48 kHz and 512-sample reads, a second takes 94 reads, 128 samples more than a second. */
  lemma ReadsAtFortyEightKilohertz()
    ensures ReadsPerFlush(48000, 512) == 94
    ensures 94 * 512 - 48000 == 128
  {
  }

  /** `for (int s = 0; s < seconds_to_record; s++)` runs this many times. */
  function Seconds(secondsToRecord: int): nat
  {
    if secondsToRecord <= 0 then 0 else secondsToRecord
  }

  /** The MQTT message of channel `c`: the filled part of its row. */
  function ChannelMessage(c: nat, filled: seq<Int16>): SinkAction
  {
    Publish(TopicBase + NatToString(c), SamplesBytes(filled))
  }

  /** The messages published after the `j`-th read of a pass that started at read `r0`, one per channel. */
  function ReadMessages(at: Reads, channels: nat, r0: nat, j: nat, n: nat): (ms: seq<SinkAction>)
    ensures |ms| == channels
  {
    seq(channels, c requires 0 <= c => ChannelMessage(c, Rows(at, c, r0, r0 + j + 1, n)))
  }

  /** All messages of the first `m` reads of a pass that started at read `r0`. */
  function PassMessages(at: Reads, channels: nat, r0: nat, m: nat, n: nat): (ms: seq<SinkAction>)
    ensures |ms| == m * channels
  {
    if m == 0 then [] else PassMessages(at, channels, r0, m - 1, n) + ReadMessages(at, channels, r0, m - 1, n)
  }

  /** No message carries more than a buffer row. */
  predicate PayloadsFit(ms: seq<SinkAction>, rowSize: nat)
  {
    forall k :: 0 <= k < |ms| ==> ms[k].Publish? && |ms[k].payload| <= 2 * rowSize
  }

  /** The buffer has `channels` rows of `rowSize` samples. */
  predicate Shaped(buffer: seq<seq<Int16>>, channels: nat, rowSize: nat)
  {
    |buffer| == channels && forall c :: 0 <= c < channels ==> |buffer[c]| == rowSize
  }

  /**
   The copy after one `Read()`: `buffer[c][samples] = At(s, c)` for every sample
   `s` and channel `c`, advancing `samples` once per sample.
   */
  method Fill(buffer: seq<seq<Int16>>, samples: nat, at: Reads, r: nat, channels: nat, n: nat, rowSize: nat)
    returns (buffer': seq<seq<Int16>>, samples': nat)
    requires Shaped(buffer, channels, rowSize) && samples + n <= rowSize
    ensures Shaped(buffer', channels, rowSize) && samples' == samples + n
    ensures forall c :: 0 <= c < channels ==> buffer'[c][..samples'] == buffer[c][..samples] + Row(at, r, c, n)
  {
    buffer', samples' := buffer, samples;
    var s := 0;
    while s < n
      invariant 0 <= s <= n && samples' == samples + s
      invariant Shaped(buffer', channels, rowSize)
      invariant forall c, t :: 0 <= c < channels && 0 <= t < samples ==> buffer'[c][t] == buffer[c][t]
      invariant forall c, t :: 0 <= c < channels && 0 <= t < s ==> buffer'[c][samples + t] == at(r, t, c)
    {
      var c := 0;
      while c < channels
        invariant 0 <= c <= channels
        invariant Shaped(buffer', channels, rowSize)
        invariant forall c', t :: 0 <= c' < channels && 0 <= t < samples ==> buffer'[c'][t] == buffer[c'][t]
        invariant forall c', t :: 0 <= c' < channels && 0 <= t < s ==> buffer'[c'][samples + t] == at(r, t, c')
        invariant forall c' :: 0 <= c' < c ==> buffer'[c'][samples'] == at(r, s, c')
      {
        var row: seq<Int16> := buffer'[c][samples' := at(r, s, c)];
        buffer' := buffer'[c := row];
        c := c + 1;
      }
      samples' := samples' + 1;
      s := s + 1;
    }
    forall c | 0 <= c < channels
      ensures buffer'[c][..samples'] == buffer[c][..samples] + Row(at, r, c, n)
    {
      assert forall t :: 0 <= t < samples' ==> buffer'[c][..samples'][t] == (buffer[c][..samples] + Row(at, r, c, n))[t];
    }
  }

  /** The publishing loop: one message per channel with the filled part of its row. */
  method PublishAll(buffer: seq<seq<Int16>>, samples: nat, channels: nat, rowSize: nat) returns (ms: seq<SinkAction>)
    requires Shaped(buffer, channels, rowSize) && samples <= rowSize
    ensures |ms| == channels
    ensures forall c :: 0 <= c < channels ==> ms[c] == ChannelMessage(c, buffer[c][..samples])
    ensures PayloadsFit(ms, rowSize)
  {
    ms := [];
    var c := 0;
    while c < channels
      invariant 0 <= c <= channels && |ms| == c
      invariant forall c' :: 0 <= c' < c ==> ms[c'] == ChannelMessage(c', buffer[c'][..samples])
      invariant PayloadsFit(ms, rowSize)
    {
      ms := ms + [ChannelMessage(c, buffer[c][..samples])];
      c := c + 1;
    }
  }

  /** The flush loop: each channel's filled part, to be appended to its file. */
  method FlushAll(buffer: seq<seq<Int16>>, samples: nat, channels: nat, rowSize: nat) returns (out: seq<seq<Int16>>)
    requires Shaped(buffer, channels, rowSize) && samples <= rowSize
    ensures |out| == channels
    ensures forall c :: 0 <= c < channels ==> out[c] == buffer[c][..samples]
  {
    out := [];
    var c := 0;
    while c < channels
      invariant 0 <= c <= channels && |out| == c
      invariant forall c' :: 0 <= c' < c ==> out[c'] == buffer[c'][..samples]
    {
      out := out + [buffer[c][..samples]];
      c := c + 1;
    }
  }

  /** The state of a pass that started at read `r0` after `m` reads: the rows hold those reads, and their messages are out. */
  predicate Filled(buffer: seq<seq<Int16>>, at: Reads, r0: nat, channels: nat, sr: nat, n: nat,
                   samples: nat, m: nat, ms: seq<SinkAction>)
  {
    Shaped(buffer, channels, sr + n) && samples == m * n && samples <= sr + n
    && (forall c :: 0 <= c < channels ==> buffer[c][..samples] == Rows(at, c, r0, r0 + m, n))
    && ms == PassMessages(at, channels, r0, m, n) && PayloadsFit(ms, sr + n)
  }

  /** One turn of the `while (true)` loop up to the flush test: read, fill, publish. */
  method ReadOnce(buffer: seq<seq<Int16>>, at: Reads, r0: nat, channels: nat, sr: nat, n: nat,
                  samples: nat, m: nat, ms: seq<SinkAction>)
    returns (buffer': seq<seq<Int16>>, samples': nat, ms': seq<SinkAction>)
    requires n > 0 && Filled(buffer, at, r0, channels, sr, n, samples, m, ms)
    requires m == 0 || samples < sr
    ensures Filled(buffer', at, r0, channels, sr, n, samples', m + 1, ms')
  {
    buffer', samples' := Fill(buffer, samples, at, r0 + m, channels, n, sr + n);
    forall c | 0 <= c < channels
      ensures buffer'[c][..samples'] == Rows(at, c, r0, r0 + m + 1, n)
    {
      assert buffer[c][..samples] == Rows(at, c, r0, r0 + m, n);
    }
    var published := PublishAll(buffer', samples', channels, sr + n);
    assert published == ReadMessages(at, channels, r0, m, n);
    ms' := ms + published;
  }

  /**
   One pass of the `while (true)` loop starting at read `r0` with `samples == 0`:
   read, fill, publish, until at least `sr` samples are in; then flush. Every
   buffer write stays inside the row of `sr + n` samples, and so does every
   published or written range.
   */
  method Pass(buffer: seq<seq<Int16>>, at: Reads, r0: nat, channels: nat, sr: nat, n: nat)
    returns (buffer': seq<seq<Int16>>, ms: seq<SinkAction>, flushed: seq<seq<Int16>>, m: nat)
    requires n > 0 && Shaped(buffer, channels, sr + n)
    ensures m == ReadsPerFlush(sr, n)
    ensures Shaped(buffer', channels, sr + n)
    ensures ms == PassMessages(at, channels, r0, m, n) && PayloadsFit(ms, sr + n)
    ensures |flushed| == channels && forall c :: 0 <= c < channels ==> flushed[c] == Rows(at, c, r0, r0 + m, n)
  {
    buffer' := buffer;
    ms := [];
    m := 0;
    var samples := 0;
    while true
      invariant Filled(buffer', at, r0, channels, sr, n, samples, m, ms)
      invariant m == 0 || samples < sr
      decreases sr - samples
    {
      buffer', samples, ms := ReadOnce(buffer', at, r0, channels, sr, n, samples, m, ms);
      m := m + 1;
      if samples >= sr {
        ReadsPerFlushIsLeast(sr, n, m);
        flushed := FlushAll(buffer', samples, channels, sr + n);
        break;
      }
    }
  }

  /** The messages of `k` whole passes, each `m` reads long. */
  function AllMessages(at: Reads, channels: nat, k: nat, m: nat, n: nat): seq<SinkAction>
  {
    if k == 0 then [] else AllMessages(at, channels, k - 1, m, n) + PassMessages(at, channels, (k - 1) * m, m, n)
  }

  /** Each channel's file holds that channel of the first `count` reads, as bytes. */
  predicate Recorded(written: seq<seq<Byte>>, at: Reads, channels: nat, n: nat, count: nat)
  {
    |written| == channels && forall c :: 0 <= c < channels ==> written[c] == SamplesBytes(Rows(at, c, 0, count, n))
  }

  /** The flush appends reads `count` .. `count + m` - 1 of each channel to its file. */
  method AppendFlushed(written: seq<seq<Byte>>, flushed: seq<seq<Int16>>, at: Reads, channels: nat, n: nat, count: nat, m: nat)
    returns (written': seq<seq<Byte>>)
    requires Recorded(written, at, channels, n, count)
    requires |flushed| == channels && forall c :: 0 <= c < channels ==> flushed[c] == Rows(at, c, count, count + m, n)
    ensures Recorded(written', at, channels, n, count + m)
  {
    forall c | 0 <= c < channels
      ensures written[c] + SamplesBytes(flushed[c]) == SamplesBytes(Rows(at, c, 0, count + m, n))
    {
      RowsSplit(at, c, 0, count, count + m, n);
      SamplesBytesAppend(Rows(at, c, 0, count, n), Rows(at, c, count, count + m, n));
    }
    written' := seq(channels, c requires 0 <= c < channels => written[c] + SamplesBytes(flushed[c]));
  }

  lemma PayloadsFitAppend(a: seq<SinkAction>, b: seq<SinkAction>, rowSize: nat)
    requires PayloadsFit(a, rowSize) && PayloadsFit(b, rowSize)
    ensures PayloadsFit(a + b, rowSize)
  {
    assert forall k :: 0 <= k < |a + b| ==> (a + b)[k] == if k < |a| then a[k] else b[k - |a|];
  }

  /** After `s` whole passes: every read so far is in its file, and every message is out. */
  predicate Progressed(buffer: seq<seq<Int16>>, published: seq<SinkAction>, written: seq<seq<Byte>>,
                       at: Reads, channels: nat, sr: nat, n: nat, s: nat, readCount: nat)
  {
    n > 0 && Shaped(buffer, channels, sr + n) && readCount == s * ReadsPerFlush(sr, n)
    && Recorded(written, at, channels, n, readCount)
    && published == AllMessages(at, channels, s, ReadsPerFlush(sr, n), n)
    && PayloadsFit(published, sr + n) && |published| == readCount * channels
  }

  lemma MulStep(s: nat, m: nat, channels: nat, r: nat)
    requires r == s * m
    ensures r + m == (s + 1) * m
    ensures (r + m) * channels == r * channels + m * channels
  {
  }

  /** A pass's reads and messages carry `Progressed` from `s` to `s + 1` passes. */
  lemma ProgressedStep(buffer: seq<seq<Int16>>, buffer': seq<seq<Int16>>, published: seq<SinkAction>, ms: seq<SinkAction>,
                       written: seq<seq<Byte>>, written': seq<seq<Byte>>,
                       at: Reads, channels: nat, sr: nat, n: nat, s: nat, readCount: nat)
    requires Progressed(buffer, published, written, at, channels, sr, n, s, readCount)
    requires Shaped(buffer', channels, sr + n)
    requires ms == PassMessages(at, channels, readCount, ReadsPerFlush(sr, n), n) && PayloadsFit(ms, sr + n)
    requires Recorded(written', at, channels, n, readCount + ReadsPerFlush(sr, n))
    ensures Progressed(buffer', published + ms, written', at, channels, sr, n, s + 1, readCount + ReadsPerFlush(sr, n))
  {
    var m := ReadsPerFlush(sr, n);
    MulStep(s, m, channels, readCount);
    PayloadsFitAppend(published, ms, sr + n);
    assert published + ms == AllMessages(at, channels, s + 1, m, n);
  }

  /** One iteration of the seconds loop: one pass, its flush appended to the files. */
  method RecordSecond(buffer: seq<seq<Int16>>, published: seq<SinkAction>, written: seq<seq<Byte>>,
                      at: Reads, channels: nat, sr: nat, n: nat, s: nat, readCount: nat)
    returns (buffer': seq<seq<Int16>>, published': seq<SinkAction>, written': seq<seq<Byte>>, readCount': nat)
    requires n > 0 && Progressed(buffer, published, written, at, channels, sr, n, s, readCount)
    ensures Progressed(buffer', published', written', at, channels, sr, n, s + 1, readCount')
  {
    var ms, flushed, m;
    buffer', ms, flushed, m := Pass(buffer, at, readCount, channels, sr, n);
    written' := AppendFlushed(written, flushed, at, channels, n, readCount, m);
    published' := published + ms;
    readCount' := readCount + m;
    ProgressedStep(buffer, buffer', published, ms, written, written', at, channels, sr, n, s, readCount);
  }

  /**
   The whole recording: `seconds_to_record` passes (none when it is not
   positive), each of `ReadsPerFlush` reads. Every sample read ends up in
   its channel's file, in order, as little-endian 16-bit values.
   */
  method Record(at: Reads, channels: nat, sr: nat, n: nat, secondsToRecord: int)
    returns (published: seq<SinkAction>, written: seq<seq<Byte>>, readCount: nat)
    requires n > 0
    ensures readCount == Seconds(secondsToRecord) * ReadsPerFlush(sr, n)
    ensures |written| == channels
    ensures forall c :: 0 <= c < channels ==> written[c] == SamplesBytes(Rows(at, c, 0, readCount, n))
    ensures published == AllMessages(at, channels, Seconds(secondsToRecord), ReadsPerFlush(sr, n), n)
    ensures |published| == readCount * channels && PayloadsFit(published, sr + n)
  {
    var zeros: seq<Int16> := seq(sr + n, _ => 0);
    var buffer := seq(channels, _ => zeros);
    published := [];
    written := seq(channels, _ => []);
    readCount := 0;
    var s: nat := 0;
    while s < secondsToRecord
      invariant s <= Seconds(secondsToRecord)
      invariant Progressed(buffer, published, written, at, channels, sr, n, s, readCount)
    {
      buffer, published, written, readCount := RecordSecond(buffer, published, written, at, channels, sr, n, s, readCount);
      s := s + 1;
    }
  }
}
