/** The channel as an object: its try operations run to their end, or to their first yield, from any
    state that other tasks may have left, inside an operation or not. */
module ChannelObjects {
  import opened Commons
  import opened BlockObjects
  import opened Ledgers

  /** A try-read gets a value, finds nothing, or yields because the credit that it gave has gone to a
      writer whose value is still to come. */
  datatype Attempt<T> = Got(value: T) | Nothing | Yields

  class ChannelImpl<T> {
    ghost const capacity: nat
    const writeBlock: BlockObject
    const readBlock: BlockObject
    var queue: seq<T>

    /** What holds between any two steps: every item signal stored has its value in the queue. */
    ghost predicate Valid()
      reads this, writeBlock, readBlock
    {
      && writeBlock != readBlock && writeBlock.Valid() && readBlock.Valid()
      && writeBlock.limit == SIZE_MAX && readBlock.limit == SIZE_MAX
      && readBlock.wakeup <= |queue|
    }

    /** Nobody is inside an operation: credit and items account for the queue, and no one waits. */
    ghost predicate Quiet()
      reads this, writeBlock, readBlock
    {
      && Valid() && writeBlock.queue == [] && readBlock.queue == []
      && writeBlock.wakeup + |queue| == capacity < SIZE_MAX && readBlock.wakeup == |queue|
    }

    constructor (size: nat)
      ensures Valid() && capacity == size && queue == [] && fresh(writeBlock) && fresh(readBlock)
      ensures size < SIZE_MAX ==> Quiet()
    {
      capacity := size;
      writeBlock := new BlockObject(size, SIZE_MAX);
      readBlock := new BlockObject(0, SIZE_MAX);
      queue := [];
    }

    /** No item signal is stored; in a quiet channel, the queue is empty. */
    method Empty() returns (r: bool)
      requires Valid()
      ensures r <==> readBlock.wakeup == 0
      ensures Quiet() ==> (r <==> queue == [])
    {
      var some := readBlock.IsWakeup();
      r := !some;
    }

    /** A credit is taken, the value appended, and its signal handed to the first parked reader or
        stored; without a credit nothing happens. */
    method TryPush(v: T, ghost t: TaskId) returns (ok: bool, woken: seq<TaskId>)
      requires Valid() && t !in writeBlock.queue
      modifies this, writeBlock, readBlock
      ensures Valid() && ok == (old(writeBlock.wakeup) > 0)
      ensures queue == if ok then old(queue) + [v] else old(queue)
      ensures writeBlock.Now() == Apply(old(writeBlock.Now()), Take(t))
      ensures readBlock.Now() == if ok then Apply(old(readBlock.Now()), Wake) else old(readBlock.Now())
      ensures ok ==> old(readBlock.queue) == woken + readBlock.queue
      ensures old(Quiet()) ==> Quiet() && ok == (|old(queue)| < capacity)
    {
      woken := [];
      ok := writeBlock.TryBlockWait(t);
      if !ok {
        return;
      }
      queue := queue + [v];
      var stored;
      stored, woken := readBlock.Wakeup();
    }

    /** The first round of the loop. A value is taken exactly when an item signal is stored. Otherwise
        the read fails exactly when no writer was parked to take its credit; the stored credit is then
        as before, but for one lost when the counter was full. */
    method TryPop(ghost t: TaskId) returns (r: Attempt<T>)
      requires Valid() && t !in writeBlock.queue && t !in readBlock.queue
      modifies this, writeBlock, readBlock
      ensures Valid() && r.Got? == (old(readBlock.wakeup) > 0)
      ensures if r.Got? then old(queue) == [r.value] + queue else queue == old(queue)
      ensures r.Yields? <==> old(readBlock.wakeup) == 0 && old(writeBlock.queue) != []
      ensures r.Yields? ==> writeBlock.wakeup == 0 && writeBlock.queue == old(writeBlock.queue)[1..]
      ensures r.Nothing? ==>
        writeBlock.wakeup == (if old(writeBlock.wakeup) >= SIZE_MAX then old(writeBlock.wakeup) - 1 else old(writeBlock.wakeup))
      ensures r.Got? ==> readBlock.wakeup == old(readBlock.wakeup) - 1
      ensures old(Quiet()) ==> Quiet() && !r.Yields? && r.Got? == (old(queue) != [])
    {
      var stored, popped := writeBlock.Wakeup();
      var taken := readBlock.TryBlockWait(t);
      if !taken {
        var back := writeBlock.TryBlockWait(t);
        return if back then Nothing else Yields;
      }
      r := Got(queue[0]);
      queue := queue[1..];
    }
  }
}
