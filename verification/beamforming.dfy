/**
 `process_beamforming` of `val/audio_processor.cpp`: delay-and-sum beamforming
 of each captured block over a sweep of candidate directions, picking the
 direction of greatest output energy, lighting one Everloop LED towards it,
 and appending the beamformed channel to a mono 16-bit WAV file.

 The per-channel delay of a direction comes from the array geometry in `float`
 trigonometry rounded to whole samples; here it is the parameter
 `delay(angle, ch)`. Angles are whole degrees, so the `float` sweep variable
 is exact and is modelled as `int`.
 */
module Beamforming {
  import opened Common
  import opened SafeQueue
  import opened Pcm
  import opened Angles
  import Capture
  import WavHeader

  const NumChannels: nat := 8
  const BitsPerSample: nat := 16
  const AngleMin: int := -180
  const AngleMax: int := 180
  const AngleStep: int := 5
  /** How many directions the sweep visits: -180, -175, ..., 180. */
  const NumAngles: nat := 73
  const AngleCorrection: int := 15
  const LedCorrection: int := -110
  const LedGreen: int := 30

  type Delays = (int, nat) -> int

  /** The `k`-th direction of the sweep. */
  function GridAngle(k: nat): int
  {
    AngleMin + AngleStep * k
  }

  /**
   What the loop body reads: `block.samples[0].size()` samples of each of the
   first 8 channels, so every one of them must be at least as long as channel 0.
   */
  predicate Sweepable(block: Capture.Block)
  {
    |block| >= NumChannels && forall ch :: 0 <= ch < NumChannels ==> |block[ch]| >= |block[0]|
  }

  /** Every block of a run is sweepable. */
  predicate AllSweepable(blocks: seq<Capture.Block>)
  {
    forall k :: 0 <= k < |blocks| ==> Sweepable(blocks[k])
  }

  /** The contribution of one channel to `sum[i]`: its sample `i + delay`, or nothing when that falls outside the block. */
  function DelayedSample(row: seq<Int16>, blockSize: nat, i: nat, delay: int): int
    requires blockSize <= |row|
  {
    var idx := i + delay;
    if 0 <= idx < blockSize then row[idx] as int else 0
  }

  /** `sum[i]` after the first `n` channels have been added in. */
  function ChannelSum(block: Capture.Block, delay: Delays, angle: int, i: nat, n: nat): (s: int)
    requires Sweepable(block) && n <= NumChannels
    ensures -32768 * n <= s <= 32767 * n
  {
    if n == 0 then 0
    else ChannelSum(block, delay, angle, i, n - 1) + DelayedSample(block[n - 1], |block[0]|, i, delay(angle, n - 1))
  }

  /** The beamformed signal for one direction: each sum divided by the channel count, truncating. */
  function Beamformed(block: Capture.Block, delay: Delays, angle: int): (out: seq<Int16>)
    requires Sweepable(block)
    ensures |out| == |block[0]|
  {
    seq(|block[0]|, i requires 0 <= i < |block[0]| => TruncDiv(ChannelSum(block, delay, angle, i, NumChannels), NumChannels))
  }

  /** The sum of squares the source accumulates in `energy`. */
  function Energy(xs: seq<Int16>): (e: nat)
  {
    if |xs| == 0 then 0 else Energy(xs[..|xs| - 1]) + xs[|xs| - 1] as int * xs[|xs| - 1] as int
  }

  /** The energy of every direction of the sweep, in sweep order. */
  function Energies(block: Capture.Block, delay: Delays): (es: seq<int>)
    requires Sweepable(block)
    ensures |es| == NumAngles
  {
    seq(NumAngles, k requires 0 <= k < NumAngles => Energy(Beamformed(block, delay, GridAngle(k))))
  }

  /** `b` holds the greatest value and nothing before it is as great. */
  predicate IsFirstMax(es: seq<int>, b: nat)
  {
    b < |es| && (forall j :: 0 <= j < |es| ==> es[j] <= es[b]) && (forall j :: 0 <= j < b ==> es[j] < es[b])
  }

  /** The position a left-to-right scan with a strict `>` settles on. */
  function FirstArgmax(es: seq<int>): (b: nat)
    requires |es| > 0
    ensures IsFirstMax(es, b)
  {
    if |es| == 1 then 0
    else
      var prev := FirstArgmax(es[..|es| - 1]);
      if es[|es| - 1] > es[prev] then |es| - 1 else prev
  }

  /** There is exactly one first maximum, so the scan's answer is the only one. */
  lemma FirstMaxUnique(es: seq<int>, b: nat)
    requires |es| > 0
    ensures IsFirstMax(es, b) <==> b == FirstArgmax(es)
  {
  }

  /** The direction the sweep picks for a block, and the output it keeps. */
  function BestAngle(block: Capture.Block, delay: Delays): int
    requires Sweepable(block)
  {
    GridAngle(FirstArgmax(Energies(block, delay)))
  }

  function BestOutput(block: Capture.Block, delay: Delays): (out: seq<Int16>)
    requires Sweepable(block)
    ensures |out| == |block[0]|
  {
    Beamformed(block, delay, BestAngle(block, delay))
  }

  /** The truncating division by 8 gives back a signal all 8 channels carry in phase. */
  lemma {:induction false} CoherentSignalPassesThrough(block: Capture.Block, delay: Delays, angle: int)
    requires Sweepable(block)
    requires forall ch :: 0 <= ch < NumChannels ==> block[ch][..|block[0]|] == block[0]
    requires forall ch :: 0 <= ch < NumChannels ==> delay(angle, ch) == 0
    ensures Beamformed(block, delay, angle) == block[0]
  {
    var out := Beamformed(block, delay, angle);
    forall i | 0 <= i < |block[0]|
      ensures out[i] == block[0][i]
    {
      CoherentSum(block, delay, angle, i, NumChannels);
      var s := ChannelSum(block, delay, angle, i, NumChannels);
      var q := TruncDiv(s, NumChannels);
      assert s == 8 * (block[0][i] as int);
      if s >= 0 {
        assert 8 * q <= 8 * block[0][i] < 8 * q + 8;
      } else {
        assert 8 * q - 8 < 8 * block[0][i] <= 8 * q;
      }
    }
  }

  lemma {:induction false} CoherentSum(block: Capture.Block, delay: Delays, angle: int, i: nat, n: nat)
    requires Sweepable(block) && n <= NumChannels && i < |block[0]|
    requires forall ch :: 0 <= ch < NumChannels ==> block[ch][..|block[0]|] == block[0]
    requires forall ch :: 0 <= ch < NumChannels ==> delay(angle, ch) == 0
    ensures ChannelSum(block, delay, angle, i, n) == n * block[0][i]
  {
    if n > 0 {
      CoherentSum(block, delay, angle, i, n - 1);
      assert block[n - 1][i] == block[n - 1][..|block[0]|][i];
    }
  }

  /**
   One direction of the sweep: the channel loop adding the delayed samples
   into `sum`, then the loop dividing by the channel count and accumulating
   the energy.
   */
  method DelayAndSum(block: Capture.Block, delay: Delays, angle: int) returns (out: seq<Int16>, energy: int)
    requires Sweepable(block)
    ensures out == Beamformed(block, delay, angle)
    ensures energy == Energy(out)
  {
    var blockSize := |block[0]|;
    var sum := seq(blockSize, _ => 0);
    var ch := 0;
    while ch < NumChannels
      invariant 0 <= ch <= NumChannels && |sum| == blockSize
      invariant forall j :: 0 <= j < blockSize ==> sum[j] == ChannelSum(block, delay, angle, j, ch)
    {
      var d := delay(angle, ch);
      var i := 0;
      while i < blockSize
        invariant 0 <= i <= blockSize && |sum| == blockSize
        invariant forall j :: 0 <= j < i ==> sum[j] == ChannelSum(block, delay, angle, j, ch + 1)
        invariant forall j :: i <= j < blockSize ==> sum[j] == ChannelSum(block, delay, angle, j, ch)
      {
        var idx := i + d;
        if 0 <= idx < blockSize {
          sum := sum[i := sum[i] + block[ch][idx] as int];
        }
        i := i + 1;
      }
      ch := ch + 1;
    }
    out := [];
    energy := 0;
    var i := 0;
    while i < blockSize
      invariant 0 <= i <= blockSize && |out| == i
      invariant forall j :: 0 <= j < i ==> out[j] == Beamformed(block, delay, angle)[j]
      invariant energy == Energy(out)
    {
      var v: Int16 := TruncDiv(sum[i], NumChannels);
      assert (out + [v])[..i] == out;
      out := out + [v];
      energy := energy + v as int * v as int;
      i := i + 1;
    }
  }

  /**
   The sweep over -180, -175, ..., 180 degrees: it keeps the first direction
   whose energy beats every earlier one (`max_energy` starts at -1, so the
   first direction is always taken).
   */
  method Sweep(block: Capture.Block, delay: Delays) returns (bestAngle: int, bestOutput: seq<Int16>)
    requires Sweepable(block)
    ensures exists k: nat :: bestAngle == GridAngle(k) && IsFirstMax(Energies(block, delay), k)
    ensures bestAngle == BestAngle(block, delay)
    ensures bestOutput == Beamformed(block, delay, bestAngle)
  {
    ghost var es := Energies(block, delay);
    var maxEnergy := -1;
    bestAngle := 0;
    bestOutput := seq(|block[0]|, _ => 0);
    var angle := AngleMin;
    ghost var k: nat := 0;
    while angle <= AngleMax
      invariant k <= NumAngles && angle == GridAngle(k)
      invariant k == 0 ==> maxEnergy == -1
      invariant k > 0 ==> var b := FirstArgmax(es[..k]);
                  bestAngle == GridAngle(b) && maxEnergy == es[b] && bestOutput == Beamformed(block, delay, bestAngle)
      decreases AngleMax - angle
    {
      var out, energy := DelayAndSum(block, delay, angle);
      assert energy == es[k];
      assert es[..k + 1][..k] == es[..k];
      if energy > maxEnergy {
        maxEnergy := energy;
        bestOutput := out;
        bestAngle := angle;
      }
      angle := angle + AngleStep;
      k := k + 1;
    }
    assert es[..k] == es;
  }

  /**
   The LED the source lights: the corrected direction mapped linearly onto
   LEDs 0 .. `numLeds` - 1, -180 degrees to the first and 180 to the last,
   rounded half up as `round` does on a non-negative value.
   */
  function LedIndex(bestAngle: int, numLeds: nat): (pin: nat)
    requires numLeds >= 1
    ensures pin < numLeds
    ensures var a := NormalizeAngle(bestAngle + LedCorrection);
            360 * pin - 180 <= (a + 180) * (numLeds - 1) < 360 * pin + 180
  {
    var a := NormalizeAngle(bestAngle + LedCorrection);
    LedRounding(a + 180, numLeds - 1);
    (2 * (a + 180) * (numLeds - 1) + 360) / 720
  }

  lemma LedRounding(x: nat, m: nat)
    requires x <= 360
    ensures var p := (2 * x * m + 360) / 720; p <= m && 360 * p - 180 <= x * m < 360 * p + 180
  {
    var p := (2 * x * m + 360) / 720;
    DivBounds(2 * x * m + 360, 720);
    assert x * m <= 360 * m by {
      MulLe(x, 360, m);
    }
  }

  lemma MulLe(a: nat, b: nat, c: nat)
    requires a <= b
    ensures a * c <= b * c
  {
  }

  /** A turn further round never lights an earlier LED. */
  lemma LedIndexMonotone(a1: int, a2: int, numLeds: nat)
    requires numLeds >= 1
    requires NormalizeAngle(a1 + LedCorrection) <= NormalizeAngle(a2 + LedCorrection)
    ensures LedIndex(a1, numLeds) <= LedIndex(a2, numLeds)
  {
    LedFormulaMonotone(NormalizeAngle(a1 + LedCorrection) + 180, NormalizeAngle(a2 + LedCorrection) + 180, numLeds - 1);
  }

  lemma LedFormulaMonotone(x1: nat, x2: nat, m: nat)
    requires x1 <= x2
    ensures (2 * x1 * m + 360) / 720 <= (2 * x2 * m + 360) / 720
  {
    MulLe(x1, x2, 2 * m);
    assert 2 * x1 * m <= 2 * x2 * m;
    DivMono(2 * x1 * m + 360, 2 * x2 * m + 360, 720);
  }

  lemma DivMono(a: nat, b: nat, d: nat)
    requires a <= b && d > 0
    ensures a / d <= b / d
  {
    DivBounds(a, d);
    DivBounds(b, d);
    if a / d > b / d {
      MulLe(b / d + 1, a / d, d);
    }
  }

  /** The direction 110 degrees round from the LED correction lights the first LED, and the opposite one the last. */
  lemma LedIndexEnds(numLeds: nat)
    requires numLeds >= 1
    ensures LedIndex(-70, numLeds) == 0
    ensures LedIndex(290, numLeds) == numLeds - 1
  {
    assert NormalizeAngle(180) == 180;
  }

  /** One Everloop LED. */
  datatype Led = Led(red: int, green: int, blue: int, white: int)

  /**
   The ring after relighting `before` at `pin`: as many LEDs, red and blue off
   everywhere, green 30 on `pin` and off elsewhere, white as in `before`.
   */
  predicate Relit(before: seq<Led>, after: seq<Led>, pin: nat)
  {
    |after| == |before|
    && forall i :: 0 <= i < |after| ==>
         after[i].red == 0 && after[i].blue == 0 && after[i].white == before[i].white
         && after[i].green == (if i == pin then LedGreen else 0)
  }

  /** Relighting twice is relighting the original ring at the second pin. */
  lemma RelitAgain(a: seq<Led>, b: seq<Led>, c: seq<Led>, p1: nat, p2: nat)
    requires Relit(a, b, p1) && Relit(b, c, p2)
    ensures Relit(a, c, p2)
  {
  }

  /** Clear the red, green and blue of every LED, then set green 30 on `pin`. White is left as it was. */
  method UpdateLeds(leds: seq<Led>, pin: nat) returns (r: seq<Led>)
    requires pin < |leds|
    ensures Relit(leds, r, pin)
    ensures forall i :: 0 <= i < |r| ==> (r[i].green != 0 <==> i == pin)
  {
    r := leds;
    var i := 0;
    while i < |r|
      invariant 0 <= i <= |r| && |r| == |leds|
      invariant forall j :: 0 <= j < i ==> r[j] == Led(0, 0, 0, leds[j].white)
      invariant forall j :: i <= j < |r| ==> r[j] == leds[j]
    {
      r := r[i := r[i].(red := 0, green := 0, blue := 0)];
      i := i + 1;
    }
    r := r[pin := r[pin].(green := LedGreen)];
  }

  /** The mono, 16-bit header written before any block is processed. */
  function OutputHeader(frequency: nat, duration: int): (h: seq<Byte>)
    requires frequency < TwoTo32
    ensures |h| == 44
  {
    WavHeader.Header(frequency, BitsPerSample, 1, WavHeader.DataSize(frequency, duration))
  }

  /** The bytes the first `n` processed blocks append to the WAV file, one entry per block. */
  function OutputsOf(blocks: seq<Capture.Block>, n: nat, delay: Delays): (bss: seq<seq<Byte>>)
    requires AllSweepable(blocks) && n <= |blocks|
    ensures |bss| == n
  {
    seq(n, k requires 0 <= k < n => SamplesBytes(BestOutput(blocks[k], delay)))
  }

  /** The reported direction of arrival of a block. */
  function Doa(block: Capture.Block, delay: Delays): (doa: int)
    requires Sweepable(block)
    ensures -180 <= doa <= 180
    ensures (BestAngle(block, delay) - AngleCorrection - doa) % 360 == 0
    ensures BestAngle(block, delay) - AngleCorrection >= -180 ==> doa == BestAngle(block, delay) - AngleCorrection
    ensures BestAngle(block, delay) - AngleCorrection < -180 ==> doa == BestAngle(block, delay) - AngleCorrection + 360
  {
    NormalizeAngle(BestAngle(block, delay) - AngleCorrection)
  }

  /** The directions reported for the first `n` blocks. */
  function DoasOf(blocks: seq<Capture.Block>, n: nat, delay: Delays): (ds: seq<int>)
    requires AllSweepable(blocks) && n <= |blocks|
    ensures |ds| == n
  {
    seq(n, k requires 0 <= k < n => Doa(blocks[k], delay))
  }

  /** The work done on one popped block: sweep, report, relight, and the bytes to append. */
  method ConsumeBlock(block: Capture.Block, leds: seq<Led>, delay: Delays)
    returns (bytes: seq<Byte>, doa: int, leds': seq<Led>)
    requires Sweepable(block) && |leds| >= 1
    ensures bytes == SamplesBytes(BestOutput(block, delay))
    ensures doa == Doa(block, delay)
    ensures Relit(leds, leds', LedIndex(BestAngle(block, delay), |leds|))
  {
    var bestAngle, bestOutput := Sweep(block, delay);
    doa := NormalizeAngle(bestAngle - AngleCorrection);
    var pin := LedIndex(bestAngle, |leds|);
    leds' := UpdateLeds(leds, pin);
    bytes := SamplesBytes(bestOutput);
  }

  lemma OutputsOfSnoc(blocks: seq<Capture.Block>, n: nat, delay: Delays)
    requires AllSweepable(blocks) && n < |blocks|
    ensures Concat(OutputsOf(blocks, n + 1, delay)) == Concat(OutputsOf(blocks, n, delay)) + SamplesBytes(BestOutput(blocks[n], delay))
    ensures DoasOf(blocks, n + 1, delay) == DoasOf(blocks, n, delay) + [Doa(blocks[n], delay)]
  {
    var before := OutputsOf(blocks, n, delay);
    var after := OutputsOf(blocks, n + 1, delay);
    var last := SamplesBytes(BestOutput(blocks[n], delay));
    assert after == before + [last] by {
      assert forall k :: 0 <= k < n ==> after[k] == before[k];
    }
    ConcatAppend(before, last);
    DoasOfSnoc(blocks, n, delay);
  }

  lemma DoasOfSnoc(blocks: seq<Capture.Block>, n: nat, delay: Delays)
    requires AllSweepable(blocks) && n < |blocks|
    ensures DoasOf(blocks, n + 1, delay) == DoasOf(blocks, n, delay) + [Doa(blocks[n], delay)]
  {
    var before := DoasOf(blocks, n, delay);
    var after := DoasOf(blocks, n + 1, delay);
    assert forall k :: 0 <= k < n ==> after[k] == before[k];
  }

  lemma AppendAssoc<T>(a: seq<T>, b: seq<T>, c: seq<T>)
    ensures (a + b) + c == a + (b + c)
  {
  }

  /** What the processing loop has produced so far. */
  datatype Progress = Progress(file: seq<Byte>, doas: seq<int>, leds: seq<Led>, rest: Queue<Capture.Block>)

  /** The first `consumed` queued blocks have been processed, and nothing else. */
  predicate Reached(q: Queue<Capture.Block>, delay: Delays, header: seq<Byte>, leds: seq<Led>, consumed: nat, st: Progress)
    requires AllSweepable(q.items) && |leds| >= 1
  {
    consumed <= |q.items|
    && st.rest.items == q.items[consumed..]
    && st.file == header + Concat(OutputsOf(q.items, consumed, delay))
    && st.doas == DoasOf(q.items, consumed, delay)
    && (consumed == 0 ==> st.leds == leds)
    && (consumed > 0 ==> Relit(leds, st.leds, LedIndex(BestAngle(q.items[consumed - 1], delay), |leds|)))
  }

  lemma ReachedInitially(q: Queue<Capture.Block>, delay: Delays, header: seq<Byte>, leds: seq<Led>)
    requires AllSweepable(q.items) && |leds| >= 1
    ensures Reached(q, delay, header, leds, 0, Progress(header, [], leds, q))
  {
    assert OutputsOf(q.items, 0, delay) == [];
    assert q.items[0..] == q.items;
  }

  /** One turn of the loop: pop, and process the block if there was one. */
  method Turn(q: Queue<Capture.Block>, delay: Delays, header: seq<Byte>, leds: seq<Led>, consumed: nat, st: Progress)
    returns (consumed': nat, st': Progress)
    requires AllSweepable(q.items) && |leds| >= 1
    requires Reached(q, delay, header, leds, consumed, st)
    ensures Reached(q, delay, header, leds, consumed', st')
    ensures consumed' == if consumed < |q.items| then consumed + 1 else consumed
  {
    var p := Pop(st.rest, []);
    if !p.ok {
      return consumed, st;
    }
    assert p.item == q.items[consumed];
    var bytes, doa, lit := ConsumeBlock(p.item, st.leds, delay);
    if consumed > 0 {
      RelitAgain(leds, st.leds, lit, LedIndex(BestAngle(q.items[consumed - 1], delay), |leds|), LedIndex(BestAngle(p.item, delay), |leds|));
    }
    OutputsOfSnoc(q.items, consumed, delay);
    ghost var before := Concat(OutputsOf(q.items, consumed, delay));
    assert st.file == header + before;
    AppendAssoc(header, before, bytes);
    consumed' := consumed + 1;
    st' := Progress(st.file + bytes, st.doas + [doa], lit, p.queue);
  }

  /** `iterations` turns of the loop, from the state before the first. */
  method RunTurns(q: Queue<Capture.Block>, delay: Delays, header: seq<Byte>, leds: seq<Led>, iterations: nat)
    returns (consumed: nat, st: Progress)
    requires AllSweepable(q.items) && |leds| >= 1
    ensures consumed == if iterations <= |q.items| then iterations else |q.items|
    ensures Reached(q, delay, header, leds, consumed, st)
  {
    st := Progress(header, [], leds, q);
    ReachedInitially(q, delay, header, leds);
    consumed := 0;
    var n := 0;
    while n < iterations
      invariant n <= iterations
      invariant consumed == if n <= |q.items| then n else |q.items|
      invariant Reached(q, delay, header, leds, consumed, st)
    {
      consumed, st := Turn(q, delay, header, leds, consumed, st);
      n := n + 1;
    }
  }

  /**
   `process_beamforming` for `iterations` turns of its `while (running)` loop
   against the blocks queued in `q`. A turn that finds the queue empty does
   nothing; any other turn consumes the head block, reports its direction,
   relights the LEDs and appends the beamformed samples to the file, so the
   file is the header followed by each consumed block's best output in queue
   order, and the LEDs point at the last block's direction.
   */
  method ProcessBeamforming(q: Queue<Capture.Block>, frequency: nat, duration: int, leds: seq<Led>,
                            delay: Delays, iterations: nat)
    returns (file: seq<Byte>, doas: seq<int>, leds': seq<Led>, rest: Queue<Capture.Block>)
    requires frequency < TwoTo32 && |leds| >= 1
    requires AllSweepable(q.items)
    ensures var consumed := if iterations <= |q.items| then iterations else |q.items|;
            rest.items == q.items[consumed..]
            && file == OutputHeader(frequency, duration) + Concat(OutputsOf(q.items, consumed, delay))
            && doas == DoasOf(q.items, consumed, delay)
            && (consumed == 0 ==> leds' == leds)
            && (consumed > 0 ==> Relit(leds, leds', LedIndex(BestAngle(q.items[consumed - 1], delay), |leds|)))
  {
    var header := OutputHeader(frequency, duration);
    var consumed, st := RunTurns(q, delay, header, leds, iterations);
    file, doas, leds', rest := st.file, st.doas, st.leds, st.rest;
  }
}
