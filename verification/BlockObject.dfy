/** The signal counter with a wait queue on which mutexes and channels are built.
    Every function below is one section under the object's spin lock. */
module BlockObjects {
  import opened Commons

  /** The default limit: the largest value of the counter's machine type. */
  const SIZE_MAX: nat := 0xFFFF_FFFF_FFFF_FFFF

  datatype Block = Block(wakeup: nat, limit: nat, queue: seq<TaskId>)

  datatype Signal = Handed(task: TaskId) | Stored | Refused

  /** A stored signal and a queued waiter never coexist, and a task queues at most once. */
  predicate Settled(b: Block) {
    && (b.wakeup > 0 ==> b.queue == [])
    && NoDup(b.queue)
  }

  predicate NoDup<T(==)>(s: seq<T>) {
    forall i, j :: 0 <= i < j < |s| ==> s[i] != s[j]
  }

  /** The queue without the first entry of this task, which in a queue without repetition is the only one. */
  function Without(q: seq<TaskId>, t: TaskId): (r: seq<TaskId>)
    ensures NoDup(q) ==> NoDup(r)
    ensures NoDup(q) ==> forall u :: u in r <==> u in q && u != t
    ensures |r| == |q| - (if t in q then 1 else 0)
  {
    if q == [] then []
    else if q[0] == t then q[1..]
    else
      var rest := Without(q[1..], t);
      assert NoDup(q) ==> (forall j :: 0 <= j < |rest| ==> rest[j] in rest) && q[0] !in q[1..];
      [q[0]] + rest
  }

  /** The fast path of a blocking wait, and the whole of a try-wait. */
  function TakeSignal(b: Block): (bool, Block) {
    if b.wakeup > 0 then (true, b.(wakeup := b.wakeup - 1)) else (false, b)
  }

  /** What the scheduler does with a task that yielded on this object: `true` when it parked. */
  function AddWaitTask(b: Block, t: TaskId): (bool, Block) {
    if b.wakeup > 0 then (false, b.(wakeup := b.wakeup - 1)) else (true, b.(queue := b.queue + [t]))
  }

  function Wakeup(b: Block): (Signal, Block) {
    if b.queue != [] then (Handed(b.queue[0]), b.(queue := b.queue[1..]))
    else if b.wakeup >= b.limit then (Refused, b)
    else (Stored, b.(wakeup := b.wakeup + 1))
  }

  function CancelWait(b: Block, t: TaskId): (bool, Block) {
    if t in b.queue then (true, b.(queue := Without(b.queue, t))) else (false, b)
  }
}
