/**
 The earlier `AudioConsumer` of `pybind11-test/example.cpp`: no `len_queue`
 counter, `stop_async` always empties the queue, and `read_async` refuses to
 read while stopped. Blocks are `std::vector<int>` of `BLOCK_SIZE` `rand()` values.
 */
module DrainingReader {
  import opened SafeQueue
  import AsyncReader

  datatype Consumer = Consumer(running: bool, queue: Queue<seq<int>>)

  function Initial(): Consumer
  {
    Consumer(false, EmptyQueue())
  }

  /** `start_async`: a no-op while running; otherwise sets the flag. */
  function StartAsync(c: Consumer): (c': Consumer)
    ensures c'.running && c'.queue == c.queue
  {
    if c.running then c else c.(running := true)
  }

  /** The `while (queue.pop(b)) b = Block{};` loop: discards every queued block. */
  function Discard(q: Queue<seq<int>>): (q': Queue<seq<int>>)
    ensures IsEmpty(q')
    decreases |q.items|
  {
    var p := Pop(q, []);
    if !p.ok then q else Discard(p.queue)
  }

  /** `stop_async`: a no-op when not running; otherwise clears the flag and always empties the queue. */
  function StopAsync(c: Consumer): (c': Consumer)
    ensures !c'.running
    ensures !c.running ==> c' == c
    ensures c.running ==> IsEmpty(c'.queue)
  {
    if !c.running then c else Consumer(false, Discard(c.queue))
  }

  /** `read_sync`: an empty block while running, otherwise exactly `BLOCK_SIZE` samples. */
  function ReadSync(c: Consumer, rand: nat -> int): (r: seq<int>)
    ensures c.running ==> r == []
    ensures !c.running ==> |r| == AsyncReader.BlockSize
    ensures !c.running ==> forall i :: 0 <= i < |r| ==> r[i] == rand(i)
  {
    if c.running then [] else AsyncReader.RandBlock(rand)
  }

  /** `read_async`: an empty block when stopped, even if blocks remain queued;
      when running, the head if there is one, else an empty block. */
  function ReadAsync(c: Consumer): (r: (seq<int>, Consumer))
    ensures !c.running ==> r == ([], c)
    ensures c.running && IsEmpty(c.queue) ==> r == ([], c)
    ensures c.running && !IsEmpty(c.queue) ==> r.1.running && [r.0] + r.1.queue.items == c.queue.items
  {
    if !c.running then ([], c)
    else
      var p := Pop(c.queue, []);
      if p.ok then (p.item, c.(queue := p.queue)) else ([], c)
  }

  /** One iteration of `producer_async`: pushes a block while running. */
  function ProducerStep(c: Consumer, block: seq<int>): (c': Consumer)
    ensures c.running ==> c' == c.(queue := Push(c.queue, block))
    ensures !c.running ==> c' == c
  {
    if c.running then c.(queue := Push(c.queue, block)) else c
  }

  datatype Step = Start | Stop | SyncRead | AsyncRead | Produce(block: seq<int>)

  function Apply(c: Consumer, step: Step): Consumer
  {
    match step
    case Start => StartAsync(c)
    case Stop => StopAsync(c)
    case SyncRead => c
    case AsyncRead => ReadAsync(c).1
    case Produce(b) => ProducerStep(c, b)
  }

  function RunSteps(c: Consumer, steps: seq<Step>): Consumer
  {
    if |steps| == 0 then c else Apply(RunSteps(c, steps[..|steps| - 1]), steps[|steps| - 1])
  }

  /** No block is ever stranded: whenever the consumer is stopped its queue is empty,
      so the refusal of `read_async` to read while stopped loses nothing. */
  lemma {:induction false} StoppedMeansEmpty(steps: seq<Step>)
    ensures var c := RunSteps(Initial(), steps); !c.running ==> IsEmpty(c.queue)
  {
    if |steps| > 0 {
      StoppedMeansEmpty(steps[..|steps| - 1]);
    }
  }
}
