/**
 The asynchronous reader objects exposed to Python: `Microphones` in
 `hal_wrapper/drivers/microphones.cpp` and `AudioConsumer` in
 `pybind11-test/matrix_python.cpp`. Both keep an `async_running` flag, a
 `SafeQueue` of blocks filled by a background producer, and an atomic
 `len_queue` counter the producer increments and the readers decrement. Their
 code is the same apart from the block type (8 rows of `int16_t` for the
 microphones, one `std::vector<int>` of `rand()` values for the test consumer),
 so the state machine is generic in the row type `R`: a block is a `seq<R>`, and
 the empty vector a default-constructed block returns is `[]`.

 Each public method, and each iteration of the producer loop, is one atomic step.
 */
module AsyncReader {
  import opened Common
  import opened SafeQueue
  import Capture

  datatype Reader<R> = Reader(running: bool, queue: Queue<seq<R>>, lenQueue: int)

  /** The constructor: not running, nothing queued, `len_queue{0}`. */
  function Initial<R>(): Reader<R>
  {
    Reader(false, EmptyQueue(), 0)
  }

  /** `start_async`: a no-op while running; otherwise sets the flag (and spawns the producer). */
  function StartAsync<R>(s: Reader<R>): (s': Reader<R>)
    ensures s'.running
    ensures s'.queue == s.queue && s'.lenQueue == s.lenQueue
  {
    if s.running then s else s.(running := true)
  }

  /** The `while (queue.pop(b)) len_queue--;` loop: one decrement per removed block. */
  function Drain<R>(q: Queue<seq<R>>, lenQueue: int): (r: (Queue<seq<R>>, int))
    ensures IsEmpty(r.0)
    ensures r.1 == lenQueue - |q.items|
    decreases |q.items|
  {
    var p := Pop(q, []);
    if !p.ok then (q, lenQueue) else Drain(p.queue, lenQueue - 1)
  }

  /** `stop_async(drain)`: a no-op when not running, even with `drain`. */
  function StopAsync<R>(s: Reader<R>, drain: bool): (s': Reader<R>)
    ensures !s'.running
    ensures !s.running ==> s' == s
    ensures s.running && drain ==> IsEmpty(s'.queue) && s'.lenQueue == s.lenQueue - |s.queue.items|
    ensures !drain ==> s'.queue == s.queue && s'.lenQueue == s.lenQueue
  {
    if !s.running then s
    else if drain then
      var (q, n) := Drain(s.queue, s.lenQueue);
      Reader(false, q, n)
    else s.(running := false)
  }

  /** `read_sync`: the empty vector while asynchronous reading is on, otherwise a newly
      captured block `captured`. The state is not touched. */
  function ReadSync<R>(s: Reader<R>, captured: seq<R>): (r: seq<R>)
    ensures s.running ==> r == []
    ensures !s.running ==> r == captured
  {
    if s.running then [] else captured
  }

  /**
   `read_async` as written: it pops first and returns the empty vector without
   touching `len_queue` only when the reader is stopped AND nothing was popped.
   In every other case `len_queue` drops by one, also when the reader is running
   and the pop found nothing.
   */
  function ReadAsync<R>(s: Reader<R>): (r: (seq<R>, Reader<R>))
    ensures r.1.running == s.running
    ensures !s.running && IsEmpty(s.queue) ==> r == ([], s)
    ensures !IsEmpty(s.queue) ==> [r.0] + r.1.queue.items == s.queue.items && r.1.lenQueue == s.lenQueue - 1
    ensures s.running && IsEmpty(s.queue) ==> r.0 == [] && r.1.queue == s.queue && r.1.lenQueue == s.lenQueue - 1
  {
    var p := Pop(s.queue, []);
    if !s.running && !p.ok then ([], s)
    else (p.item, s.(queue := p.queue, lenQueue := s.lenQueue - 1))
  }

  /**
   `read_async` as evidently intended: `len_queue` counts the queued blocks, so
   it is decremented exactly when a block was removed.
   */
  function ReadAsyncCounted<R>(s: Reader<R>): (r: (seq<R>, Reader<R>))
    ensures r.1.running == s.running
    ensures IsEmpty(s.queue) ==> r == ([], s)
    ensures !IsEmpty(s.queue) ==> [r.0] + r.1.queue.items == s.queue.items && r.1.lenQueue == s.lenQueue - 1
  {
    var p := Pop(s.queue, []);
    if !p.ok then ([], s)
    else (p.item, s.(queue := p.queue, lenQueue := s.lenQueue - 1))
  }

  /** One iteration of `producer_async_fun`: while running, push a block and bump `len_queue`.
      Once the flag is clear the loop has exited and nothing happens. */
  function ProducerStep<R>(s: Reader<R>, block: seq<R>): (s': Reader<R>)
    ensures s.running ==> s'.queue == Push(s.queue, block) && s'.lenQueue == s.lenQueue + 1 && s'.running
    ensures !s.running ==> s' == s
  {
    if s.running then s.(queue := Push(s.queue, block), lenQueue := s.lenQueue + 1) else s
  }

  /** Everything a client or the producer thread can do to a reader. */
  datatype Step<R> = Start | Stop(drain: bool) | SyncRead(captured: seq<R>) | AsyncRead | Produce(block: seq<R>)

  /** The transitions as the code is written. */
  function Apply<R>(s: Reader<R>, step: Step<R>): Reader<R>
  {
    match step
    case Start => StartAsync(s)
    case Stop(drain) => StopAsync(s, drain)
    case SyncRead(_) => s
    case AsyncRead => ReadAsync(s).1
    case Produce(b) => ProducerStep(s, b)
  }

  /** The transitions with `read_async` corrected. */
  function ApplyCounted<R>(s: Reader<R>, step: Step<R>): Reader<R>
  {
    match step
    case AsyncRead => ReadAsyncCounted(s).1
    case _ => Apply(s, step)
  }

  function RunSteps<R>(s: Reader<R>, steps: seq<Step<R>>): Reader<R>
  {
    if |steps| == 0 then s else Apply(RunSteps(s, steps[..|steps| - 1]), steps[|steps| - 1])
  }

  function RunStepsCounted<R>(s: Reader<R>, steps: seq<Step<R>>): Reader<R>
  {
    if |steps| == 0 then s else ApplyCounted(RunStepsCounted(s, steps[..|steps| - 1]), steps[|steps| - 1])
  }

  /** `len_async_queue` agrees with the real queue length. */
  predicate CounterExact<R>(s: Reader<R>)
  {
    s.lenQueue == |s.queue.items|
  }

  /** As written, the counter never overstates the queue: every transition keeps `len_queue <= |queue|`. */
  lemma {:induction false} CounterNeverOverstates<R>(steps: seq<Step<R>>)
    ensures RunSteps(Initial<R>(), steps).lenQueue <= |RunSteps(Initial<R>(), steps).queue.items|
  {
    if |steps| > 0 {
      CounterNeverOverstates(steps[..|steps| - 1]);
    }
  }

  /** As written, the counter drifts: on a running reader with an empty queue, `read_async`
      returns nothing yet lowers `len_queue`, which then reads -1 for a queue of length 0. */
  lemma ReadAsyncCounterDrift<R>()
    ensures var s := RunSteps(Initial<R>(), [Start, AsyncRead]);
            IsEmpty(s.queue) && s.lenQueue == -1 && !CounterExact(s)
  {
    var steps: seq<Step<R>> := [Start, AsyncRead];
    assert steps[..1] == [Start];
    assert steps[..1][..0] == [];
  }

  /** Corrected: from the constructor on, `len_queue` equals the queue length after any steps. */
  lemma {:induction false} CountedReaderKeepsCount<R>(steps: seq<Step<R>>)
    ensures CounterExact(RunStepsCounted(Initial<R>(), steps))
  {
    if |steps| > 0 {
      CountedReaderKeepsCount(steps[..|steps| - 1]);
    }
  }

  /** `start_async` twice is `start_async` once. */
  lemma StartAsyncIdempotent<R>(s: Reader<R>)
    ensures StartAsync(StartAsync(s)) == StartAsync(s)
  {
  }

  /** `Microphones::producer_sync`: one `Read()` copied into `CHANNELS` rows of `BLOCK_SIZE` samples. */
  method MicReadSync(s: Reader<seq<Int16>>, frame: Capture.Frame, channels: nat, blockSize: nat)
    returns (r: Capture.Block)
    ensures s.running ==> r == []
    ensures !s.running ==> Capture.WellShaped(r, channels, blockSize)
    ensures !s.running ==> forall ch, t :: 0 <= ch < channels && 0 <= t < blockSize ==> r[ch][t] == frame(t, ch)
  {
    if s.running {
      r := [];
    } else {
      r := Capture.CopyFrame(frame, channels, blockSize);
    }
  }

  /** One iteration of the microphone producer: the pushed block is the transposed frame. */
  method MicProducerStep(s: Reader<seq<Int16>>, frame: Capture.Frame, channels: nat, blockSize: nat)
    returns (s': Reader<seq<Int16>>)
    ensures s.running ==> s'.lenQueue == s.lenQueue + 1
    ensures s.running ==> |s'.queue.items| == |s.queue.items| + 1 && s'.queue.items[..|s.queue.items|] == s.queue.items
    ensures s.running ==> var b := s'.queue.items[|s.queue.items|];
              Capture.WellShaped(b, channels, blockSize)
              && forall ch, t :: 0 <= ch < channels && 0 <= t < blockSize ==> b[ch][t] == frame(t, ch)
    ensures !s.running ==> s' == s
  {
    if s.running {
      var b := Capture.CopyFrame(frame, channels, blockSize);
      s' := ProducerStep(s, b);
    } else {
      s' := s;
    }
  }

  /** `BLOCK_SIZE` of `pybind11-test/example.hpp`. */
  const BlockSize: nat := 512

  /** The test consumer's block: `BLOCK_SIZE` successive `std::rand()` values. */
  function RandBlock(rand: nat -> int): (b: seq<int>)
    ensures |b| == BlockSize
    ensures forall i :: 0 <= i < BlockSize ==> b[i] == rand(i)
  {
    seq(BlockSize, i requires 0 <= i => rand(i))
  }

  /** `AudioConsumer::read_sync`: empty while running, otherwise exactly `BLOCK_SIZE` samples. */
  function ConsumerReadSync(s: Reader<int>, rand: nat -> int): (r: seq<int>)
    ensures s.running ==> r == []
    ensures !s.running ==> |r| == BlockSize
    ensures !s.running ==> forall i :: 0 <= i < |r| ==> r[i] == rand(i)
  {
    ReadSync(s, RandBlock(rand))
  }
}
