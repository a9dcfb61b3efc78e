/** What every history of a block object keeps, the mutex that is one such object, and the object. */
module Ledgers {
  import opened Commons
  import opened BlockObjects

  // ---- the ledger of signals over every history ----

  datatype Op = Take(t: TaskId) | Park(t: TaskId) | Wake | Cancel(t: TaskId)

  /** An object together with how many signals it began with, the successful wake-ups since, and the
      tasks granted a signal, in order. */
  datatype Ledger = Ledger(block: Block, init: nat, wakes: nat, grants: seq<TaskId>)

  function Opened(init: nat, limit: nat): Ledger {
    Ledger(Block(init, limit, []), init, 0, [])
  }

  /** A task that is queued here is not running, so it can neither try, yield nor queue again. */
  predicate Legal(l: Ledger, op: Op) {
    (op.Take? || op.Park?) ==> op.t !in l.block.queue
  }

  function Apply(l: Ledger, op: Op): Ledger {
    match op
    case Take(t) =>
      var (taken, b) := TakeSignal(l.block);
      l.(block := b, grants := if taken then l.grants + [t] else l.grants)
    case Park(t) =>
      var (parked, b) := AddWaitTask(l.block, t);
      l.(block := b, grants := if parked then l.grants else l.grants + [t])
    case Wake =>
      (match Wakeup(l.block)
       case (Handed(t), b) => l.(block := b, wakes := l.wakes + 1, grants := l.grants + [t])
       case (Stored, b) => l.(block := b, wakes := l.wakes + 1)
       case (Refused, b) => l)
    case Cancel(t) => l.(block := CancelWait(l.block, t).1)
  }

  predicate Balanced(l: Ledger) {
    && Settled(l.block)
    && l.init + l.wakes == l.block.wakeup + |l.grants|
    && (l.block.wakeup <= l.init || l.block.wakeup <= l.block.limit)
  }

  lemma ApplyKeepsBalance(l: Ledger, op: Op)
    requires Balanced(l) && Legal(l, op)
    ensures Balanced(Apply(l, op)) && Apply(l, op).init == l.init && Apply(l, op).block.limit == l.block.limit
  {
    if op.Park? && l.block.wakeup == 0 {
      assert forall i :: 0 <= i < |l.block.queue| ==> l.block.queue[i] in l.block.queue;
    }
  }

  ghost predicate History(states: seq<Ledger>, ops: seq<Op>) {
    && |states| == |ops| + 1
    && forall i :: 0 <= i < |ops| ==> Legal(states[i], ops[i]) && states[i + 1] == Apply(states[i], ops[i])
  }

  /** In every reachable state a stored signal and a waiter never coexist, the initial signals and the
      successful wake-ups are the stored signals and the grants, and the store stays in its limit. */
  lemma {:induction false} LedgerHolds(init: nat, limit: nat, states: seq<Ledger>, ops: seq<Op>, k: nat)
    requires History(states, ops) && states[0] == Opened(init, limit) && k < |states|
    ensures Balanced(states[k]) && states[k].init == init && states[k].block.limit == limit
  {
    if k > 0 {
      LedgerHolds(init, limit, states, ops, k - 1);
      ApplyKeepsBalance(states[k - 1], ops[k - 1]);
    }
  }

  /** The tasks that queued, in order, over the first `k` operations. */
  ghost function Parked(states: seq<Ledger>, ops: seq<Op>, k: nat): seq<TaskId>
    requires History(states, ops) && k <= |ops|
  {
    if k == 0 then []
    else Parked(states, ops, k - 1)
         + if ops[k - 1].Park? && states[k - 1].block.wakeup == 0 then [ops[k - 1].t] else []
  }

  /** The tasks that a wake-up took from the queue, in order. */
  ghost function Woken(states: seq<Ledger>, ops: seq<Op>, k: nat): seq<TaskId>
    requires History(states, ops) && k <= |ops|
  {
    if k == 0 then []
    else Woken(states, ops, k - 1)
         + if ops[k - 1].Wake? && states[k - 1].block.queue != [] then [states[k - 1].block.queue[0]] else []
  }

  /** Without cancelled waits, waiters are woken in exactly the order in which they queued. */
  lemma {:induction false} FirstComeFirstServed(states: seq<Ledger>, ops: seq<Op>, k: nat)
    requires History(states, ops) && states[0].block.queue == [] && k <= |ops|
    requires forall i :: 0 <= i < |ops| ==> !ops[i].Cancel?
    ensures Parked(states, ops, k) == Woken(states, ops, k) + states[k].block.queue
  {
    if k > 0 {
      FirstComeFirstServed(states, ops, k - 1);
    }
  }

  /** `t` stands before `u`. */
  ghost predicate Ahead(q: seq<TaskId>, t: TaskId, u: TaskId) {
    exists i, j :: 0 <= i < j < |q| && q[i] == t && q[j] == u
  }

  lemma {:induction false} WithoutKeepsOrder(q: seq<TaskId>, x: TaskId, t: TaskId, u: TaskId)
    requires NoDup(q) && Ahead(q, t, u) && x != t && x != u
    ensures Ahead(Without(q, x), t, u)
  {
    var i, j :| 0 <= i < j < |q| && q[i] == t && q[j] == u;
    if q[0] == x {
      assert q[1..][i - 1] == t && q[1..][j - 1] == u;
    } else {
      var r := Without(q[1..], x);
      assert Without(q, x) == [q[0]] + r;
      assert q[1..][j - 1] == u;
      if i == 0 {
        FirstIsAhead(t, r, u);
      } else {
        assert q[1..][i - 1] == t;
        WithoutKeepsOrder(q[1..], x, t, u);
        AheadStays(q[0], r, t, u);
      }
    }
  }

  lemma FirstIsAhead(t: TaskId, r: seq<TaskId>, u: TaskId)
    requires u in r
    ensures Ahead([t] + r, t, u)
  {
    var k :| 0 <= k < |r| && r[k] == u;
    assert ([t] + r)[0] == t && ([t] + r)[k + 1] == u;
  }

  lemma AheadStays(x: TaskId, r: seq<TaskId>, t: TaskId, u: TaskId)
    requires Ahead(r, t, u)
    ensures Ahead([x] + r, t, u)
  {
    var k, l :| 0 <= k < l < |r| && r[k] == t && r[l] == u;
    assert ([x] + r)[k + 1] == t && ([x] + r)[l + 1] == u;
  }

  /** No operation changes the order of two waiters that both stay. */
  lemma OrderIsKept(l: Ledger, op: Op, t: TaskId, u: TaskId)
    requires Balanced(l) && Legal(l, op) && Ahead(l.block.queue, t, u)
    requires t in Apply(l, op).block.queue && u in Apply(l, op).block.queue
    ensures Ahead(Apply(l, op).block.queue, t, u)
  {
    var q, q' := l.block.queue, Apply(l, op).block.queue;
    var i, j :| 0 <= i < j < |q| && q[i] == t && q[j] == u;
    if op.Cancel? && op.t in q {
      WithoutKeepsOrder(q, op.t, t, u);
    } else if op.Wake? && q != [] {
      assert i > 0;
      assert q'[i - 1] == t && q'[j - 1] == u;
    } else {
      assert q'[i] == t && q'[j] == u;
    }
  }

  /** Nobody is overtaken, cancelled waits or not: if `t` queued before `u` and `u` is woken while it
      has waited on, then `t` has left the queue in between. */
  lemma {:induction false} NoOvertaking(init: nat, limit: nat, states: seq<Ledger>, ops: seq<Op>,
                                        i: nat, j: nat, t: TaskId, u: TaskId)
    requires History(states, ops) && states[0] == Opened(init, limit) && i <= j < |ops|
    requires Ahead(states[i].block.queue, t, u)
    requires forall m :: i <= m <= j ==> u in states[m].block.queue
    requires ops[j] == Wake && states[j].block.queue[0] == u
    ensures exists m :: i < m <= j && t !in states[m].block.queue
  {
    if forall m :: i < m <= j ==> t in states[m].block.queue {
      StaysAhead(init, limit, states, ops, i, j, t, u);
      LedgerHolds(init, limit, states, ops, j);
      assert false;
    }
  }

  lemma {:induction false} StaysAhead(init: nat, limit: nat, states: seq<Ledger>, ops: seq<Op>,
                                      i: nat, j: nat, t: TaskId, u: TaskId)
    requires History(states, ops) && states[0] == Opened(init, limit) && i <= j < |states|
    requires Ahead(states[i].block.queue, t, u)
    requires forall m :: i < m <= j ==> t in states[m].block.queue && u in states[m].block.queue
    ensures Ahead(states[j].block.queue, t, u)
  {
    if i < j {
      StaysAhead(init, limit, states, ops, i, j - 1, t, u);
      LedgerHolds(init, limit, states, ops, j - 1);
      var k := j - 1;
      assert states[k + 1] == Apply(states[k], ops[k]);
      assert t in states[j].block.queue && u in states[j].block.queue;
      OrderIsKept(states[j - 1], ops[j - 1], t, u);
    }
  }

  // ---- the mutex: one signal, at most one stored ----

  /** A mutex, the tasks that were granted it, those inside `lock` that still want it, and whether the
      last grant went to a task that did not. */
  datatype Mutex = Mutex(block: Block, holders: multiset<TaskId>, wanting: set<TaskId>, unaware: bool)

  /** `Lock` is the section at the head of `lock`; `Yield` is what the scheduler does with a task that
      switched out on the mutex, from `lock` or by a plain yield after a wait that `AddWaitTask`
      ended. */
  datatype MutexOp = TryLock(t: TaskId) | Lock(t: TaskId) | Yield(t: TaskId) | Unlock(t: TaskId)

  function NewMutex(): Mutex { Mutex(Block(1, 1, []), multiset{}, {}, false) }

  /** Only a holder that runs unlocks. */
  predicate MutexLegal(m: Mutex, op: MutexOp) {
    match op
    case TryLock(t) => t !in m.block.queue && t !in m.wanting
    case Lock(t) => t !in m.block.queue && t !in m.wanting
    case Yield(t) => t !in m.block.queue
    case Unlock(t) => t in m.holders && t !in m.block.queue
  }

  /** A task is granted the mutex, whether it wants it or not. */
  function Grant(m: Mutex, b: Block, t: TaskId): Mutex {
    Mutex(b, m.holders + multiset{t}, m.wanting - {t}, t !in m.wanting)
  }

  function MutexApply(m: Mutex, op: MutexOp): Mutex {
    match op
    case TryLock(t) =>
      var (taken, b) := TakeSignal(m.block);
      if taken then m.(block := b, holders := m.holders + multiset{t}, unaware := false) else m
    case Lock(t) =>
      var (taken, b) := TakeSignal(m.block);
      if taken then m.(block := b, holders := m.holders + multiset{t}, unaware := false)
      else m.(wanting := m.wanting + {t})
    case Yield(t) =>
      var (parked, b) := AddWaitTask(m.block, t);
      if parked then m.(block := b) else Grant(m, b, t)
    case Unlock(t) =>
      var (signal, b) := Wakeup(m.block);
      var left := m.(block := b, holders := m.holders - multiset{t}, unaware := false);
      if signal.Handed? then Grant(left, b, signal.task) else left
  }

  ghost predicate MutexRun(ms: seq<Mutex>, ops: seq<MutexOp>) {
    && |ms| == |ops| + 1 && ms[0] == NewMutex()
    && forall i :: 0 <= i < |ops| ==> MutexLegal(ms[i], ops[i]) && ms[i + 1] == MutexApply(ms[i], ops[i])
  }

  /** There is one token: it is stored or it is held, and a waiter waits only while it is held. */
  predicate OneToken(m: Mutex) {
    m.block.limit == 1 && Settled(m.block) && m.block.wakeup + |m.holders| == 1 && (m.unaware ==> m.block.wakeup == 0)
  }

  lemma {:induction false} MutexHasOneHolder(ms: seq<Mutex>, ops: seq<MutexOp>, k: nat)
    requires MutexRun(ms, ops) && k < |ms|
    ensures OneToken(ms[k])
    ensures forall t, u :: t in ms[k].holders && u in ms[k].holders ==> t == u
    ensures k < |ops| && ops[k].Unlock? ==> !Wakeup(ms[k].block).0.Refused?
  {
    if k > 0 {
      MutexHasOneHolder(ms, ops, k - 1);
      MutexStep(ms[k - 1], ops[k - 1]);
    }
    forall t, u | t in ms[k].holders && u in ms[k].holders ensures t == u {
      OneElement(ms[k].holders, t, u);
    }
    if k < |ops| && ops[k].Unlock? {
      assert |ms[k].holders - multiset{ops[k].t}| + 1 == |ms[k].holders|;
    }
  }

  lemma OneElement(h: multiset<TaskId>, t: TaskId, u: TaskId)
    requires |h| <= 1 && t in h && u in h
    ensures t == u
  {
    assert |h - multiset{t}| == 0;
    assert h - multiset{t} == multiset{};
    assert (h - multiset{t})[u] == 0;
  }

  lemma MutexStep(m: Mutex, op: MutexOp)
    requires OneToken(m) && MutexLegal(m, op)
    ensures OneToken(MutexApply(m, op))
  {
    if op.Unlock? {
      assert |m.holders - multiset{op.t}| + 1 == |m.holders|;
    } else {
      assert forall i :: 0 <= i < |m.block.queue| ==> m.block.queue[i] in m.block.queue;
    }
  }

  // ---- the mutex that nobody will unlock ----

  /** The operation grants the mutex to a task that is not inside `lock`. */
  predicate Loses(m: Mutex, op: MutexOp) {
    match op
    case TryLock(_) => false
    case Lock(_) => false
    case Yield(t) => m.block.wakeup > 0 && t !in m.wanting
    case Unlock(_) => m.block.queue != [] && m.block.queue[0] !in m.wanting
  }

  /** The holder itself yields on the mutex and finds no signal. */
  predicate Sticks(m: Mutex, op: MutexOp) { op.Yield? && op.t in m.holders && m.block.wakeup == 0 }

  /** A task unlocks only what it knows to hold. */
  predicate Aware(m: Mutex, op: MutexOp) { op.Unlock? ==> !m.unaware }

  /** The holder does not know that it holds the mutex, or is parked in its queue. */
  ghost predicate Gone(m: Mutex) { m.unaware || exists t :: t in m.holders && t in m.block.queue }

  lemma UnawareStays(m: Mutex, op: MutexOp)
    requires OneToken(m) && MutexLegal(m, op) && Aware(m, op) && m.unaware
    ensures MutexApply(m, op).unaware && MutexApply(m, op).holders == m.holders
  {
  }

  lemma ParkedHolderStays(m: Mutex, op: MutexOp, t: TaskId)
    requires OneToken(m) && MutexLegal(m, op) && t in m.holders && t in m.block.queue
    ensures MutexApply(m, op).holders == m.holders && t in MutexApply(m, op).block.queue
  {
    if op.Unlock? {
      OneElement(m.holders, t, op.t);
      assert false;
    }
  }

  /** What is gone stays gone, with the same holder. */
  lemma GoneStays(m: Mutex, op: MutexOp)
    requires OneToken(m) && MutexLegal(m, op) && Aware(m, op) && Gone(m)
    ensures Gone(MutexApply(m, op)) && MutexApply(m, op).holders == m.holders
  {
    if m.unaware {
      UnawareStays(m, op);
    } else {
      var t :| t in m.holders && t in m.block.queue;
      ParkedHolderStays(m, op, t);
    }
  }

  lemma LosesIsGone(m: Mutex, op: MutexOp)
    requires OneToken(m) && MutexLegal(m, op) && (Loses(m, op) || Sticks(m, op))
    ensures Gone(MutexApply(m, op))
  {
    if Sticks(m, op) {
      assert op.t in MutexApply(m, op).holders && op.t in MutexApply(m, op).block.queue;
    }
  }

  lemma StaysHere(m: Mutex, op: MutexOp)
    requires OneToken(m) && MutexLegal(m, op) && !Gone(m) && !Loses(m, op) && !Sticks(m, op)
    ensures !Gone(MutexApply(m, op))
  {
    var m' := MutexApply(m, op);
    forall t | t in m'.holders ensures t !in m'.block.queue {
      if op.Unlock? {
        HandedIsOut(m, op, t);
      }
    }
  }

  /** Who is handed the mutex has left the queue. */
  lemma HandedIsOut(m: Mutex, op: MutexOp, t: TaskId)
    requires OneToken(m) && MutexLegal(m, op) && op.Unlock? && t in MutexApply(m, op).holders
    ensures t !in MutexApply(m, op).block.queue
  {
    OneElement(m.holders, op.t, op.t);
    assert |m.holders - multiset{op.t}| == 0;
    assert m.holders - multiset{op.t} == multiset{};
    if m.block.queue != [] {
      assert m.block.queue == [m.block.queue[0]] + m.block.queue[1..];
      assert forall i :: 0 <= i < |m.block.queue[1..]| ==> m.block.queue[1..][i] == m.block.queue[i + 1];
    }
  }

  lemma LossStep(m: Mutex, op: MutexOp)
    requires OneToken(m) && MutexLegal(m, op) && Aware(m, op)
    ensures Gone(MutexApply(m, op)) <==> Gone(m) || Loses(m, op) || Sticks(m, op)
  {
    if Gone(m) {
      GoneStays(m, op);
    } else if Loses(m, op) || Sticks(m, op) {
      LosesIsGone(m, op);
    } else {
      StaysHere(m, op);
    }
  }

  lemma LossAt(ms: seq<Mutex>, ops: seq<MutexOp>, k: nat)
    requires MutexRun(ms, ops) && k < |ops| && Aware(ms[k], ops[k])
    ensures Gone(ms[k + 1]) <==> Gone(ms[k]) || Loses(ms[k], ops[k]) || Sticks(ms[k], ops[k])
    ensures Gone(ms[k]) ==> ms[k + 1].holders == ms[k].holders
  {
    MutexHasOneHolder(ms, ops, k);
    LossStep(ms[k], ops[k]);
    if Gone(ms[k]) {
      GoneStays(ms[k], ops[k]);
    }
  }

  /** If tasks unlock only what they know to hold, the mutex is gone if and only if it was granted to a
      task that had not asked, or its holder yielded on it and found no signal. */
  lemma LossIsExact(ms: seq<Mutex>, ops: seq<MutexOp>, k: nat)
    requires MutexRun(ms, ops) && k < |ms| && forall i :: 0 <= i < k ==> Aware(ms[i], ops[i])
    ensures Gone(ms[k]) <==> exists i :: 0 <= i < k && (Loses(ms[i], ops[i]) || Sticks(ms[i], ops[i]))
  {
    var facts := seq(k + 1, i requires 0 <= i <= k => Gone(ms[i]));
    var turns := seq(k, i requires 0 <= i < k => Loses(ms[i], ops[i]) || Sticks(ms[i], ops[i]));
    forall i | 0 <= i < k ensures facts[i + 1] <==> facts[i] || turns[i] {
      LossAt(ms, ops, i);
    }
    TurnsTrue(facts, turns, k);
    assert forall i :: 0 <= i < k ==> turns[i] == (Loses(ms[i], ops[i]) || Sticks(ms[i], ops[i]));
  }

  lemma {:induction false} GoneRemains(ms: seq<Mutex>, ops: seq<MutexOp>, i: nat, k: nat)
    requires MutexRun(ms, ops) && i <= k < |ms| && Gone(ms[i])
    requires forall j :: i <= j < k ==> Aware(ms[j], ops[j])
    ensures Gone(ms[k]) && ms[k].holders == ms[i].holders
  {
    if i < k {
      GoneRemains(ms, ops, i, k - 1);
      LossAt(ms, ops, k - 1);
    }
  }

  /** And then for good: it stays locked, with the same holder, and nobody ever unlocks it. */
  lemma LostForever(ms: seq<Mutex>, ops: seq<MutexOp>, i: nat, k: nat)
    requires MutexRun(ms, ops) && i <= k < |ms| && Gone(ms[i])
    requires forall j :: i <= j < k ==> Aware(ms[j], ops[j])
    ensures Gone(ms[k]) && ms[k].block.wakeup == 0 && ms[k].holders == ms[i].holders
    ensures k < |ops| && Aware(ms[k], ops[k]) ==> !ops[k].Unlock?
  {
    GoneRemains(ms, ops, i, k);
    MutexHasOneHolder(ms, ops, k);
    GoneIsLocked(ms[k]);
    if k < |ops| && Aware(ms[k], ops[k]) && ops[k].Unlock? {
      GoneIsNotUnlocked(ms[k], ops[k]);
      assert false;
    }
  }

  lemma GoneIsLocked(m: Mutex)
    requires OneToken(m) && Gone(m)
    ensures m.block.wakeup == 0
  {
  }

  lemma GoneIsNotUnlocked(m: Mutex, op: MutexOp)
    requires OneToken(m) && Gone(m) && Aware(m, op) && op.Unlock?
    ensures !MutexLegal(m, op)
  {
    if op.t in m.holders && !m.unaware {
      var t :| t in m.holders && t in m.block.queue;
      OneElement(m.holders, t, op.t);
    }
  }

  /** It happens: task 0 is refused by `AddWaitTask` because task 1 unlocks first, gets the mutex so,
      unlocks it and yields plainly. */
  lemma LossIsReachable() returns (ms: seq<Mutex>, ops: seq<MutexOp>)
    ensures MutexRun(ms, ops) && (forall i :: 0 <= i < |ops| ==> Aware(ms[i], ops[i]))
    ensures ms[|ops|] == Mutex(Block(0, 1, []), multiset{0}, {}, true)
  {
    var held := Mutex(Block(0, 1, []), multiset{1}, {}, false);
    var free := Mutex(Block(1, 1, []), multiset{}, {0}, false);
    ms := [NewMutex(), held, held.(wanting := {0}), free, held.(holders := multiset{0}), NewMutex(),
           Mutex(Block(0, 1, []), multiset{0}, {}, true)];
    ops := [TryLock(1), Lock(0), Unlock(1), Yield(0), Unlock(0), Yield(0)];
    forall i | 0 <= i < |ops|
      ensures MutexLegal(ms[i], ops[i]) && Aware(ms[i], ops[i]) && ms[i + 1] == MutexApply(ms[i], ops[i])
    {
      assert multiset{1} - multiset{1} == multiset{} && multiset{0} - multiset{0} == multiset{};
    }
  }

  /** Or it yields plainly while it holds the mutex, and is queued on it. */
  lemma SelfParkIsReachable() returns (ms: seq<Mutex>, ops: seq<MutexOp>)
    ensures MutexRun(ms, ops) && (forall i :: 0 <= i < |ops| ==> Aware(ms[i], ops[i]))
    ensures ms[|ops|] == Mutex(Block(0, 1, [0]), multiset{0}, {}, false)
  {
    var held := Mutex(Block(0, 1, []), multiset{1}, {}, false);
    var free := Mutex(Block(1, 1, []), multiset{}, {0}, false);
    ms := [NewMutex(), held, held.(wanting := {0}), free, held.(holders := multiset{0}),
           Mutex(Block(0, 1, [0]), multiset{0}, {}, false)];
    ops := [TryLock(1), Lock(0), Unlock(1), Yield(0), Yield(0)];
    forall i | 0 <= i < |ops|
      ensures MutexLegal(ms[i], ops[i]) && Aware(ms[i], ops[i]) && ms[i + 1] == MutexApply(ms[i], ops[i])
    {
      assert multiset{1} - multiset{1} == multiset{};
    }
  }

  // ---- the object itself ----

  /** Fields as the source has them; `grants` and `wakes` are the ghost ledger. Each method is one
      section under the spin lock. */
  class BlockObject {
    var wakeup: nat
    const limit: nat
    var queue: seq<TaskId>
    ghost const init: nat
    ghost var wakes: nat
    ghost var grants: seq<TaskId>

    ghost function Now(): Ledger
      reads this
    {
      Ledger(Block(wakeup, limit, queue), init, wakes, grants)
    }

    ghost predicate Valid()
      reads this
    {
      Balanced(Now())
    }

    constructor (initial: nat, max: nat)
      ensures Valid() && Now() == Opened(initial, max)
    {
      wakeup, limit, queue := initial, max, [];
      init, wakes, grants := initial, 0, [];
    }

    /** Also the section at the head of both blocking waits. */
    method TryBlockWait(ghost t: TaskId) returns (taken: bool)
      requires Valid() && t !in queue
      modifies this
      ensures Valid() && Now() == Apply(old(Now()), Take(t)) && taken == (old(wakeup) > 0)
    {
      ApplyKeepsBalance(Now(), Take(t));
      if wakeup == 0 {
        return false;
      }
      wakeup := wakeup - 1;
      grants := grants + [t];
      taken := true;
    }

    method AddWaitTask(t: TaskId) returns (parked: bool)
      requires Valid() && t !in queue
      modifies this
      ensures Valid() && Now() == Apply(old(Now()), Park(t))
      ensures parked == (t in queue)
    {
      ApplyKeepsBalance(Now(), Park(t));
      if wakeup > 0 {
        wakeup := wakeup - 1;
        grants := grants + [t];
        return false;
      }
      queue := queue + [t];
      parked := true;
    }

    /** The popped task, if any, is then made runnable outside the lock. */
    method Wakeup() returns (ok: bool, popped: seq<TaskId>)
      requires Valid()
      modifies this
      ensures Valid() && Now() == Apply(old(Now()), Wake)
      ensures old(queue) == popped + queue && ok == (wakes == old(wakes) + 1)
      ensures !ok <==> old(queue) == [] && old(wakeup) >= limit
    {
      ApplyKeepsBalance(Now(), Wake);
      if queue == [] {
        if wakeup >= limit {
          return false, [];
        }
        wakeup := wakeup + 1;
        wakes := wakes + 1;
        return true, [];
      }
      var t := queue[0];
      popped, queue := [t], queue[1..];
      wakes, grants := wakes + 1, grants + [t];
      ok := true;
    }

    /** The erase in `CancelWait`, behind its two tests of the task's own fields. */
    method CancelWait(t: TaskId) returns (erased: bool)
      requires Valid()
      modifies this
      ensures Valid() && Now() == Apply(old(Now()), Cancel(t))
      ensures erased == (t in old(queue)) && t !in queue && grants == old(grants)
    {
      ApplyKeepsBalance(Now(), Cancel(t));
      erased := t in queue;
      if erased {
        queue := Without(queue, t);
      }
    }

    method IsWakeup() returns (r: bool)
      requires Valid()
      ensures r ==> queue == []
      ensures r == TakeSignal(Now().block).0
    {
      r := wakeup > 0;
    }
  }
}
