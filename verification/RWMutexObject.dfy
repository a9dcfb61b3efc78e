/** The reader/writer lock as an object: its try and unlock operations run undisturbed from any state
    that other tasks may have left, inside an operation or not. */
module RWMutexObjects {
  import opened Commons
  import opened BlockObjects
  import opened Ledgers

  class CoRWMutexImpl {
    const mtx: BlockObject
    var readers: int
    /** Whether a task owns the mutex, the readers inside, and those that have counted themselves and
        are on their way in or out. */
    ghost var owned: bool
    ghost var inside: nat
    ghost var passing: nat

    ghost predicate Valid()
      reads this, mtx
    {
      && mtx.Valid() && mtx.limit == 1 && mtx.wakeup == (if owned then 0 else 1)
      && readers == inside + passing
    }

    constructor ()
      ensures Valid() && !owned && inside == 0 && passing == 0 && fresh(mtx)
    {
      mtx := new BlockObject(1, 1);
      readers, owned, inside, passing := 0, false, 0, 0;
    }

    /** A reader gets in exactly when nobody owns the mutex. */
    method ReadTryLock() returns (ok: bool)
      requires Valid()
      modifies this
      ensures Valid() && ok == !old(owned) && owned == old(owned) && passing == old(passing)
      ensures inside == if ok then old(inside) + 1 else old(inside)
    {
      readers := readers + 1;
      var free := mtx.IsWakeup();
      if !free {
        readers := readers - 1;
        return false;
      }
      inside := inside + 1;
      ok := true;
    }

    method ReadUnlock()
      requires Valid() && inside > 0
      modifies this
      ensures Valid() && readers >= 0 && inside == old(inside) - 1 && owned == old(owned) && passing == old(passing)
    {
      readers := readers - 1;
      inside := inside - 1;
    }

    /** A writer gets in exactly when nobody owns the mutex and no reader is counted; if it fails, the
        mutex is as it was. */
    method WriteTryLock(ghost t: TaskId) returns (ok: bool)
      requires Valid() && t !in mtx.queue
      modifies this, mtx
      ensures Valid() && ok == (!old(owned) && old(inside) == 0 && old(passing) == 0)
      ensures owned == (old(owned) || ok) && inside == old(inside) && passing == old(passing)
      ensures mtx.queue == old(mtx.queue)
    {
      ok := mtx.TryBlockWait(t);
      if !ok {
        return;
      }
      if readers != 0 {
        var stored, popped := mtx.Wakeup();
        return false;
      }
      owned := true;
    }

    /** The owner's unlock is never refused: it hands the mutex to the first waiter or frees it. */
    method WriteUnlock() returns (ok: bool, next: seq<TaskId>)
      requires Valid() && owned
      modifies this, mtx
      ensures Valid() && ok && inside == old(inside) && passing == old(passing)
      ensures old(mtx.queue) == next + mtx.queue
      ensures owned == (next != []) == (old(mtx.queue) != [])
    {
      ok, next := mtx.Wakeup();
      owned := next != [];
    }
  }
}
