/**
 Block capture (the producer side) and the plain per-channel consumer.

 The microphone array is an external collaborator: after its `Read()`, the
 accessor `At(s, ch)` yields sample `s` of channel `ch`. The model receives the
 values of `At` for the k-th `Read()` as `read(k)`. The global `running` flag,
 cleared by another thread, and the clock are inputs as well: `stopAfter` is the
 number of loop-head checks at which `running` was still set.
 */
module Capture {
  import opened Common
  import opened SafeQueue
  import opened Pcm

  /** The values `At(s, ch)` returns after one `Read()`. */
  type Frame = (nat, nat) -> Int16

  /** An `AudioBlock`: one row per channel, each row in acquisition order. */
  type Block = seq<seq<Int16>>

  /** `channels` rows of `blockSize` samples each. */
  predicate WellShaped(b: Block, channels: nat, blockSize: nat)
  {
    |b| == channels && forall ch :: 0 <= ch < channels ==> |b[ch]| == blockSize
  }

  /** The block a producer builds from one frame: row `ch`, column `s` holds `At(s, ch)`. */
  function BlockOf(frame: Frame, channels: nat, blockSize: nat): Block
  {
    seq(channels, ch requires 0 <= ch => seq(blockSize, s requires 0 <= s => frame(s, ch)))
  }

  /**
   The copy loop every producer runs: `samples` is first resized to
   `CHANNELS` rows of `BLOCK_SIZE` zeros, then filled sample-major, channel-minor.
   */
  method CopyFrame(frame: Frame, channels: nat, blockSize: nat) returns (b: Block)
    ensures WellShaped(b, channels, blockSize)
    ensures forall ch, s :: 0 <= ch < channels && 0 <= s < blockSize ==> b[ch][s] == frame(s, ch)
    ensures b == BlockOf(frame, channels, blockSize)
  {
    b := seq(channels, _ => seq(blockSize, _ => 0));
    var s := 0;
    while s < blockSize
      invariant 0 <= s <= blockSize
      invariant WellShaped(b, channels, blockSize)
      invariant forall c, t :: 0 <= c < channels && 0 <= t < s ==> b[c][t] == frame(t, c)
    {
      var ch := 0;
      while ch < channels
        invariant 0 <= ch <= channels
        invariant WellShaped(b, channels, blockSize)
        invariant forall c, t :: 0 <= c < channels && 0 <= t < s ==> b[c][t] == frame(t, c)
        invariant forall c :: 0 <= c < ch ==> b[c][s] == frame(s, c)
      {
        var row: seq<Int16> := b[ch];
        b := b[ch := row[s := frame(s, ch)]];
        ch := ch + 1;
      }
      s := s + 1;
    }
    assert forall c :: 0 <= c < channels ==> b[c] == BlockOf(frame, channels, blockSize)[c];
  }

  /**
   `capture_audio` of `val/audio_processor.cpp` (and its copy in
   `tfg/old_cpp_code.cpp`): one block per iteration while `running` holds and,
   for a positive duration, the clock has not passed the end time. Both
   conditions are outside the model; `iterations` is how many times they held.
   */
  method CaptureTimed(read: nat -> Frame, channels: nat, blockSize: nat, iterations: nat)
    returns (pushed: seq<Block>, running: bool)
    ensures |pushed| == iterations
    ensures forall k :: 0 <= k < iterations ==> pushed[k] == BlockOf(read(k), channels, blockSize)
    ensures !running
  {
    pushed := [];
    while |pushed| < iterations
      invariant |pushed| <= iterations
      invariant forall k :: 0 <= k < |pushed| ==> pushed[k] == BlockOf(read(k), channels, blockSize)
    {
      var block := CopyFrame(read(|pushed|), channels, blockSize);
      pushed := pushed + [block];
    }
    running := false;
  }

  /** The number of `blockSize` blocks needed to cover `needed` samples, rounded up. */
  function BlocksNeeded(needed: nat, blockSize: nat): nat
    requires blockSize > 0
  {
    (needed + blockSize - 1) / blockSize
  }

  /** `BlocksNeeded` is the least block count whose samples reach `needed`. */
  lemma BlocksNeededIsLeast(needed: nat, blockSize: nat, k: nat)
    requires blockSize > 0
    ensures (k * blockSize >= needed && (k == 0 || (k - 1) * blockSize < needed)) <==> k == BlocksNeeded(needed, blockSize)
  {
    var m := BlocksNeeded(needed, blockSize);
    var t := needed + blockSize - 1;
    assert t == blockSize * m + t % blockSize;
    assert m * blockSize >= needed;
    assert m == 0 || (m - 1) * blockSize < needed;
    if k < m {
      assert k <= m - 1;
      MulMono(k, m - 1, blockSize);
    } else if k > m {
      assert m <= k - 1;
      MulMono(m, k - 1, blockSize);
    }
  }

  lemma MulMono(a: nat, b: nat, c: nat)
    requires a <= b
    ensures a * c <= b * c
  {
  }

  /** One second at 16000 Hz in blocks of 512 samples takes 32 blocks (the last one partly past the second). */
  lemma SixteenKilohertzOneSecond()
    ensures BlocksNeeded(16000 * 1, 512) == 32
  {
  }

  /**
   `capture_audio` of `tfg/audio_processor.cpp`: counts pushed samples in a
   `uint32_t` and stops once `frequency * duration` (also `uint32_t`) is reached,
   or when `running` is cleared. `running` is false on exit.
   */
  method CaptureCounted(read: nat -> Frame, channels: nat, blockSize: nat, frequency: nat, duration: int, stopAfter: nat)
    returns (pushed: seq<Block>, totalSamples: nat, running: bool)
    requires blockSize < TwoTo32 && frequency < TwoTo32
    ensures |pushed| <= stopAfter
    ensures forall k :: 0 <= k < |pushed| ==> pushed[k] == BlockOf(read(k), channels, blockSize)
    ensures !running
    ensures U32(frequency * duration) == 0 ==> |pushed| == 0
    // Without 32-bit wrap of the sample counter, the count is exact:
    ensures blockSize > 0 && U32(frequency * duration) + blockSize <= TwoTo32 ==>
              totalSamples == |pushed| * blockSize
              && |pushed| == (if stopAfter < BlocksNeeded(U32(frequency * duration), blockSize) then stopAfter
                              else BlocksNeeded(U32(frequency * duration), blockSize))
    ensures blockSize > 0 && U32(frequency * duration) + blockSize <= TwoTo32 && |pushed| < stopAfter ==>
              U32(frequency * duration) <= totalSamples < U32(frequency * duration) + blockSize
  {
    var totalNeeded := U32(frequency * duration);
    ghost var noWrap := blockSize > 0 && totalNeeded + blockSize <= TwoTo32;
    totalSamples := 0;
    pushed := [];
    while |pushed| < stopAfter && totalSamples < totalNeeded
      invariant |pushed| <= stopAfter
      invariant totalSamples < TwoTo32
      invariant forall k :: 0 <= k < |pushed| ==> pushed[k] == BlockOf(read(k), channels, blockSize)
      invariant totalNeeded == 0 ==> |pushed| == 0
      invariant noWrap ==> totalSamples == |pushed| * blockSize
      invariant noWrap ==> |pushed| == 0 || (|pushed| - 1) * blockSize < totalNeeded
      decreases stopAfter - |pushed|
    {
      var block := CopyFrame(read(|pushed|), channels, blockSize);
      pushed := pushed + [block];
      if noWrap {
        assert (|pushed| - 1) * blockSize == totalSamples;
        assert |pushed| * blockSize == totalSamples + blockSize;
      }
      totalSamples := U32(totalSamples + blockSize);
    }
    running := false;
    if noWrap {
      var n := |pushed|;
      var m := BlocksNeeded(totalNeeded, blockSize);
      if n < stopAfter {
        BlocksNeededIsLeast(totalNeeded, blockSize, n);
        assert n == 0 || (n - 1) * blockSize < totalNeeded;
        assert totalSamples == n * blockSize;
        assert totalSamples < totalNeeded + blockSize by {
          if n > 0 {
            assert n * blockSize == (n - 1) * blockSize + blockSize;
          }
        }
      } else {
        BlocksNeededIsLeast(totalNeeded, blockSize, m);
        if m < n {
          MulMono(m, n - 1, blockSize);
        }
      }
    }
  }

  /** Rows of a block `process_audio` may consume: it reads `samples[0]` for the block size,
      then `block_size` samples of each of the first `channels` rows. */
  predicate Consumable(b: Block, channels: nat)
  {
    |b| >= 1 && |b| >= channels && forall ch :: 0 <= ch < channels ==> |b[ch]| >= |b[0]|
  }

  /** The messages and file writes `process_audio` emits for one block: for each
      channel in order, the first `block_size` samples of its row to that channel's
      file and to topic `topicBase + ch`. */
  function BlockActions(block: Block, channels: nat, topicBase: string): (acts: seq<SinkAction>)
    requires Consumable(block, channels)
    ensures |acts| == 2 * channels
    ensures forall ch :: 0 <= ch < channels ==>
              acts[2 * ch] == FileWrite(ch, SamplesBytes(block[ch][..|block[0]|]))
              && acts[2 * ch + 1] == Publish(topicBase + NatToString(ch), SamplesBytes(block[ch][..|block[0]|]))
  {
    if channels == 0 then []
    else
      var row := block[channels - 1][..|block[0]|];
      BlockActions(block, channels - 1, topicBase)
        + [FileWrite(channels - 1, SamplesBytes(row)), Publish(topicBase + NatToString(channels - 1), SamplesBytes(row))]
  }

  /** Every queued block is consumable. */
  predicate AllConsumable(blocks: seq<Block>, channels: nat)
  {
    forall k :: 0 <= k < |blocks| ==> Consumable(blocks[k], channels)
  }

  lemma AllConsumableTail(blocks: seq<Block>, channels: nat)
    requires |blocks| > 0 && AllConsumable(blocks, channels)
    ensures AllConsumable(blocks[1..], channels)
  {
    forall k | 0 <= k < |blocks| - 1
      ensures Consumable(blocks[1..][k], channels)
    {
      assert blocks[1..][k] == blocks[k + 1];
    }
  }

  /** One iteration of the `process_audio` loop: a failed `pop` only sleeps. */
  function ProcessAudioStep(q: Queue<Block>, channels: nat, topicBase: string): (r: (seq<SinkAction>, Queue<Block>))
    requires AllConsumable(q.items, channels)
    ensures !IsEmpty(q) ==> Consumable(q.items[0], channels)
    ensures IsEmpty(q) ==> r == ([], q)
    ensures !IsEmpty(q) ==> [q.items[0]] + r.1.items == q.items
    ensures !IsEmpty(q) ==> r.0 == BlockActions(q.items[0], channels, topicBase)
    ensures !IsEmpty(q) ==> forall ch :: 0 <= ch < channels ==> |r.0[2 * ch].data| == 2 * |q.items[0][0]|
  {
    var p := Pop(q, []);
    if !p.ok then ([], q)
    else
      assert p.item == q.items[0];
      assert Consumable(q.items[0], channels);
      (BlockActions(p.item, channels, topicBase), p.queue)
  }

  /** The actions for the first `n` blocks of a run, block after block. */
  function ActionsOf(blocks: seq<Block>, n: nat, channels: nat, topicBase: string): seq<SinkAction>
    requires n <= |blocks| && AllConsumable(blocks, channels)
    decreases n
  {
    if n == 0 then []
    else
      assert Consumable(blocks[0], channels);
      AllConsumableTail(blocks, channels);
      BlockActions(blocks[0], channels, topicBase) + ActionsOf(blocks[1..], n - 1, channels, topicBase)
  }

  lemma ActionsOfCons(blocks: seq<Block>, n: nat, channels: nat, topicBase: string)
    requires 0 < n <= |blocks| && AllConsumable(blocks, channels)
    ensures AllConsumable(blocks[1..], channels)
    ensures ActionsOf(blocks, n, channels, topicBase)
            == BlockActions(blocks[0], channels, topicBase) + ActionsOf(blocks[1..], n - 1, channels, topicBase)
  {
    AllConsumableTail(blocks, channels);
  }

  lemma ProcessAudioCons(q: Queue<Block>, rest: Queue<Block>, channels: nat)
    requires |q.items| > 0 && AllConsumable(q.items, channels) && [q.items[0]] + rest.items == q.items
    ensures rest.items == q.items[1..] && AllConsumable(rest.items, channels)
  {
    assert rest.items == ([q.items[0]] + rest.items)[1..];
    AllConsumableTail(q.items, channels);
  }

  /**
   `process_audio` while `running` stays set for `iterations` loop checks and no
   producer pushes meanwhile: it consumes blocks head first, emitting each
   block's actions in queue order, and what is still queued when `running`
   drops stays in the queue unconsumed.
   */
  function ProcessAudio(q: Queue<Block>, channels: nat, topicBase: string, iterations: nat): (r: (seq<SinkAction>, Queue<Block>))
    requires AllConsumable(q.items, channels)
    ensures var consumed := if iterations <= |q.items| then iterations else |q.items|;
            r.1.items == q.items[consumed..]
            && r.0 == ActionsOf(q.items, consumed, channels, topicBase)
    decreases iterations
  {
    if iterations == 0 then ([], q)
    else if IsEmpty(q) then ProcessAudio(q, channels, topicBase, iterations - 1)
    else
      var step := ProcessAudioStep(q, channels, topicBase);
      ProcessAudioCons(q, step.1, channels);
      var tail := ProcessAudio(step.1, channels, topicBase, iterations - 1);
      ProcessAudioJoin(q, step.0, step.1, tail, channels, topicBase, iterations);
      (step.0 + tail.0, tail.1)
  }

  /** A consuming turn followed by the remaining turns consumes one more block. */
  lemma ProcessAudioJoin(q: Queue<Block>, acts: seq<SinkAction>, rest: Queue<Block>, tail: (seq<SinkAction>, Queue<Block>),
                         channels: nat, topicBase: string, iterations: nat)
    requires iterations > 0 && |q.items| > 0 && AllConsumable(q.items, channels)
    requires rest.items == q.items[1..] && acts == BlockActions(q.items[0], channels, topicBase)
    requires var consumed := if iterations - 1 <= |rest.items| then iterations - 1 else |rest.items|;
             AllConsumable(rest.items, channels)
             && tail.1.items == rest.items[consumed..]
             && tail.0 == ActionsOf(rest.items, consumed, channels, topicBase)
    ensures var consumed := if iterations <= |q.items| then iterations else |q.items|;
            tail.1.items == q.items[consumed..]
            && acts + tail.0 == ActionsOf(q.items, consumed, channels, topicBase)
  {
    var consumed := if iterations <= |q.items| then iterations else |q.items|;
    ActionsOfCons(q.items, consumed, channels, topicBase);
  }
}
