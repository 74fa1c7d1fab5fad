/**
 The `SafeQueue<T>` of the audio pipeline: an unbounded FIFO guarded by a mutex.
 The same class appears three times in the repository (`tfg/queue.hpp`,
 `tfg/python/pybind11-test/example.hpp`, and inside
 `hal_wrapper/drivers/microphones.cpp`) with identical `push`, `pop` and
 `wait_pop`; only the first has `empty`. Each operation holds the lock for its
 whole body, so it is modelled as one atomic step on the queue's contents.
 */
module SafeQueue {

  /** The contents of the underlying `std::queue`, head first. */
  datatype Queue<T> = Queue(items: seq<T>)

  function EmptyQueue<T>(): Queue<T> { Queue([]) }

  /** `push(item)`: appends at the tail. */
  function Push<T>(q: Queue<T>, item: T): (q': Queue<T>)
    ensures |q'.items| == |q.items| + 1
    ensures q'.items[..|q.items|] == q.items
    ensures q'.items[|q.items|] == item
  {
    Queue(q.items + [item])
  }

  /** What `pop(item)` leaves behind: its boolean result, the out-parameter and the queue. */
  datatype PopResult<T> = PopResult(ok: bool, item: T, queue: Queue<T>)

  /** `pop(item)`: non-blocking; on an empty queue the out-parameter `item` keeps its value. */
  function Pop<T>(q: Queue<T>, item: T): (r: PopResult<T>)
    ensures r.ok <==> |q.items| > 0
    ensures r.ok ==> [r.item] + r.queue.items == q.items
    ensures !r.ok ==> r.item == item && r.queue == q
  {
    if |q.items| == 0 then PopResult(false, item, q)
    else PopResult(true, q.items[0], Queue(q.items[1..]))
  }

  /**
   The step `wait_pop` performs once its condition variable lets it through:
   it can only complete on a non-empty queue, and then takes the head.
   */
  function WaitPop<T>(q: Queue<T>): (r: (T, Queue<T>))
    requires |q.items| > 0
    ensures [r.0] + r.1.items == q.items
  {
    (q.items[0], Queue(q.items[1..]))
  }

  /** `empty()`: a snapshot of whether the queue holds nothing. */
  function IsEmpty<T>(q: Queue<T>): (b: bool)
    ensures b <==> q == EmptyQueue()
  {
    |q.items| == 0
  }

  /** Once enabled, `wait_pop` has the effect of a successful `pop`, whatever the out-parameter held. */
  lemma WaitPopIsSuccessfulPop<T>(q: Queue<T>, item: T)
    requires |q.items| > 0
    ensures Pop(q, item).ok
    ensures Pop(q, item).item == WaitPop(q).0
    ensures Pop(q, item).queue == WaitPop(q).1
  {
  }

  /** A push followed by a pop on an empty queue hands back the pushed item and leaves the queue empty. */
  lemma PushThenPopEmpty<T>(x: T, item: T)
    ensures Pop(Push(EmptyQueue(), x), item) == PopResult(true, x, EmptyQueue())
  {
  }

  /** One client call on the queue. */
  datatype Op<T> = PushOp(x: T) | PopOp

  /** The items a list of calls pushes, in call order. */
  function Pushed<T>(ops: seq<Op<T>>): seq<T>
  {
    if |ops| == 0 then []
    else Pushed(ops[..|ops| - 1]) + (match ops[|ops| - 1] case PushOp(x) => [x] case PopOp => [])
  }

  /** The state after a list of calls, and the items the successful pops returned, in order. */
  datatype Trace<T> = Trace(queue: Queue<T>, popped: seq<T>)

  /** Runs the calls one after another; a `pop` on an empty queue returns nothing. */
  function Run<T>(q: Queue<T>, ops: seq<Op<T>>): Trace<T>
  {
    if |ops| == 0 then Trace(q, [])
    else
      var t := Run(q, ops[..|ops| - 1]);
      match ops[|ops| - 1]
      case PushOp(x) => Trace(Push(t.queue, x), t.popped)
      case PopOp =>
        if IsEmpty(t.queue) then t
        else
          var (head, rest) := WaitPop(t.queue);
          Trace(rest, t.popped + [head])
  }

  /**
   FIFO: after any interleaving of pushes and pops, what was in the queue plus
   everything pushed equals everything popped (in order) plus what remains.
   So pops return the items in exactly the order they were pushed.
   */
  lemma {:induction false} RunIsFifo<T>(q: Queue<T>, ops: seq<Op<T>>)
    ensures q.items + Pushed(ops) == Run(q, ops).popped + Run(q, ops).queue.items
  {
    if |ops| > 0 {
      var init := ops[..|ops| - 1];
      RunIsFifo(q, init);
      var t := Run(q, init);
      match ops[|ops| - 1]
      case PushOp(x) =>
        assert Pushed(ops) == Pushed(init) + [x];
        assert Run(q, ops) == Trace(Push(t.queue, x), t.popped);
        assert Push(t.queue, x).items == t.queue.items + [x];
        assert q.items + (Pushed(init) + [x]) == (q.items + Pushed(init)) + [x];
        assert (t.popped + t.queue.items) + [x] == t.popped + (t.queue.items + [x]);
      case PopOp =>
        assert Pushed(ops) == Pushed(init);
        if !IsEmpty(t.queue) {
          var (head, rest) := WaitPop(t.queue);
          assert Run(q, ops) == Trace(rest, t.popped + [head]);
          assert t.popped + t.queue.items == (t.popped + [head]) + rest.items;
        }
    }
  }

  /** Pushes `xs` one after another. */
  function PushMany<T>(q: Queue<T>, xs: seq<T>): Queue<T>
  {
    if |xs| == 0 then q else Push(PushMany(q, xs[..|xs| - 1]), xs[|xs| - 1])
  }

  /** `n` successful pops in a row, returning the popped items in order. */
  function PopMany<T>(q: Queue<T>, n: nat): (seq<T>, Queue<T>)
    requires n <= |q.items|
    decreases n
  {
    if n == 0 then ([], q)
    else
      var (head, rest) := WaitPop(q);
      var (more, last) := PopMany(rest, n - 1);
      ([head] + more, last)
  }

  lemma {:induction false} PushManyAppends<T>(q: Queue<T>, xs: seq<T>)
    ensures PushMany(q, xs).items == q.items + xs
  {
    if |xs| > 0 {
      PushManyAppends(q, xs[..|xs| - 1]);
      assert xs == xs[..|xs| - 1] + [xs[|xs| - 1]];
    }
  }

  lemma {:induction false} PopManyTakesPrefix<T>(q: Queue<T>, n: nat)
    requires n <= |q.items|
    ensures PopMany(q, n).0 == q.items[..n]
    ensures PopMany(q, n).1.items == q.items[n..]
    decreases n
  {
    if n > 0 {
      PopManyTakesPrefix(Queue(q.items[1..]), n - 1);
      assert q.items[..n] == [q.items[0]] + q.items[1..][..n - 1];
      assert q.items[n..] == q.items[1..][n - 1..];
    }
  }

  /** Pushing x1..xn onto an empty queue and then popping n times yields x1..xn in order, leaving it empty. */
  lemma PushesThenPopsInOrder<T>(xs: seq<T>)
    ensures |xs| <= |PushMany(EmptyQueue(), xs).items|
    ensures PopMany(PushMany(EmptyQueue(), xs), |xs|) == (xs, EmptyQueue())
  {
    PushManyAppends(EmptyQueue(), xs);
    var q := PushMany(EmptyQueue(), xs);
    PopManyTakesPrefix(q, |xs|);
    assert q.items == xs;
    assert PopMany(q, |xs|).0 == xs;
    assert PopMany(q, |xs|).1 == Queue(q.items[|xs|..]);
    assert q.items[|xs|..] == [];
  }
}
