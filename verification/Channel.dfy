/** A buffered channel as a transition system: any number of tasks, each lock section of the two
    block objects and each section under the queue mutex one step, in every interleaving. */
module Channels {
  import opened Commons
  import opened BlockObjects
  import opened Counting

  /** The two block objects of a channel. */
  datatype Side = WriteSide | ReadSide

  datatype ReadKind = Blocking | Timed | Try

  /** Where a task stands in a channel operation. */
  datatype Pc<T> =
    | Idle                    // in user code
    | WWait(v: T)             // operator<<, about to wait for a write credit
    | WTimed(v: T)            // TimedPush, likewise
    | WCredit(v: T)           // holds a write credit, about to push
    | WPushed                 // pushed, about to wake the read side
    | RBegin(kind: ReadKind)  // about to wake the write side
    | RWait                   // operator>>, about to wait for an item
    | RTimed                  // TimedPop, likewise
    | RRecheck                // TimedPop, the wait returned false
    | RLoopRead               // retry loop, about to try the read side
    | RLoopWrite              // retry loop, about to try to withdraw
    | RYield                  // retry loop, about to yield
    | RItem                   // holds an item signal, about to pop

  /** `Yielded` is the gap between a task's switch-out and the scheduler's `AddWaitTask`. */
  datatype Place = Active | Yielded(side: Side) | Parked(side: Side)

  datatype Stale = Fresh | On(side: Side)

  /** `stale` remembers that the task was refused by `AddWaitTask` and requeued with its state
      still `sys_block`: its next plain yield goes back to that block object. */
  datatype Thread<T> = Thread(pc: Pc<T>, place: Place, stale: Stale)

  /** `leaked` counts signals taken by no operation (a stale yield, a timed wait outside a
      coroutine); `dropped` counts signals refused by a saturated counter. */
  datatype Tally = Tally(leaked: nat, dropped: nat)

  /** `got` is what each task was last given by a read. */
  datatype State<T> = State(
    write: Block, read: Block, queue: seq<T>,
    tasks: map<TaskId, Thread<T>>,
    pushed: seq<T>, popped: seq<T>, started: nat, withdrawn: nat,
    writeTally: Tally, readTally: Tally, underflow: bool, got: map<TaskId, T>)

  datatype Step<T> =
    | Spawn(t: TaskId)
    | BeginPush(t: TaskId, v: T)
    | BeginTimedPush(t: TaskId, v: T)
    | TryPush(t: TaskId, v: T)
    | BeginPop(t: TaskId, kind: ReadKind)
    | Wait(t: TaskId)
    | OutsideTake(t: TaskId)
    | OutsideExpire(t: TaskId)
    | Park(t: TaskId)
    | Expire(t: TaskId)
    | Push(t: TaskId)
    | WakeReader(t: TaskId)
    | WakeWriter(t: TaskId)
    | Recheck(t: TaskId)
    | LoopRead(t: TaskId)
    | LoopWrite(t: TaskId)
    | Yield(t: TaskId)
    | Forget(t: TaskId)
    | Pop(t: TaskId)

  function Init<T>(capacity: nat): State<T> {
    State(Block(capacity, SIZE_MAX, []), Block(0, SIZE_MAX, []), [], map[],
          [], [], 0, 0, Tally(0, 0), Tally(0, 0), false, map[])
  }

  // ---- pieces of a step ----

  function BlockOf<T>(s: State<T>, side: Side): Block {
    if side == WriteSide then s.write else s.read
  }

  function WithBlock<T>(s: State<T>, side: Side, b: Block): State<T> {
    if side == WriteSide then s.(write := b) else s.(read := b)
  }

  function WithTask<T>(s: State<T>, t: TaskId, th: Thread<T>): State<T> {
    s.(tasks := s.tasks[t := th])
  }

  function Leak<T>(s: State<T>, side: Side): State<T> {
    if side == WriteSide then s.(writeTally := s.writeTally.(leaked := s.writeTally.leaked + 1))
    else s.(readTally := s.readTally.(leaked := s.readTally.leaked + 1))
  }

  function Drop<T>(s: State<T>, side: Side): State<T> {
    if side == WriteSide then s.(writeTally := s.writeTally.(dropped := s.writeTally.dropped + 1))
    else s.(readTally := s.readTally.(dropped := s.readTally.dropped + 1))
  }

  /** The task is inside `CoBlockWait` or `CoBlockWaitTimed` of that side. */
  predicate Awaits<T>(pc: Pc<T>, side: Side) {
    if side == WriteSide then pc.WWait? || pc.WTimed? else pc.RWait? || pc.RTimed?
  }

  function SideOf<T>(pc: Pc<T>): Side {
    if pc.WWait? || pc.WTimed? then WriteSide else ReadSide
  }

  function Granted<T>(pc: Pc<T>): Pc<T> {
    match pc
    case WWait(v) => WCredit(v)
    case WTimed(v) => WCredit(v)
    case RWait => RItem
    case RTimed => RItem
    case _ => pc
  }

  function TimedOut<T>(pc: Pc<T>): Pc<T> {
    match pc
    case WTimed(v) => Idle
    case RTimed => RRecheck
    case _ => pc
  }

  /** Task `t` receives a signal of `side`; one that was not waiting there loses it. */
  function Receive<T>(s: State<T>, t: TaskId, side: Side, stale: Stale): State<T>
    requires t in s.tasks
  {
    var pc := s.tasks[t].pc;
    var s1 := WithTask(s, t, Thread(Granted(pc), Active, stale));
    if Awaits(pc, side) then s1 else Leak(s1, side)
  }

  /** `Wakeup` on one side, including what it does to the task it hands the signal to. */
  function Wake<T>(s: State<T>, side: Side): State<T> {
    var (signal, b) := Wakeup(BlockOf(s, side));
    var s1 := WithBlock(s, side, b);
    match signal
    case Stored => s1
    case Refused => Drop(s1, side)
    case Handed(u) => if u in s.tasks then Receive(s1, u, side, Fresh) else s1
  }

  // ---- steps ----

  predicate Enabled<T>(s: State<T>, step: Step<T>) {
    if step.Spawn? then step.t !in s.tasks
    else
      && step.t in s.tasks
      && var th := s.tasks[step.t];
         match step
         case Spawn(_) => false
         case Park(_) => th.place.Yielded?
         case Expire(_) => th.place.Parked? && !th.pc.WWait? && !th.pc.RWait?
         case _ => th.place == Active && EnabledActive(th, step)
  }

  predicate EnabledActive<T>(th: Thread<T>, step: Step<T>) {
    match step
    case BeginPush(_, _) => th.pc == Idle
    case BeginTimedPush(_, _) => th.pc == Idle
    case TryPush(_, _) => th.pc == Idle
    case BeginPop(_, _) => th.pc == Idle
    case Wait(_) => Awaits(th.pc, SideOf(th.pc))
    case OutsideTake(_) => th.pc.WTimed? || th.pc.RTimed?
    case OutsideExpire(_) => th.pc.WTimed? || th.pc.RTimed?
    case Push(_) => th.pc.WCredit?
    case WakeReader(_) => th.pc.WPushed?
    case WakeWriter(_) => th.pc.RBegin?
    case Recheck(_) => th.pc.RRecheck?
    case LoopRead(_) => th.pc.RLoopRead?
    case LoopWrite(_) => th.pc.RLoopWrite?
    case Yield(_) => th.pc == Idle || th.pc == RYield
    case Forget(_) => true
    case Pop(_) => th.pc.RItem?
    case _ => false
  }

  function Exec<T>(s: State<T>, step: Step<T>): State<T>
    requires Enabled(s, step)
  {
    if step.Spawn? then WithTask(s, step.t, Thread(Idle, Active, Fresh))
    else
      var t := step.t;
      var th := s.tasks[t];
      match step
      case BeginPush(_, v) => WithTask(s, t, th.(pc := WWait(v)))
      case BeginTimedPush(_, v) => WithTask(s, t, th.(pc := WTimed(v)))
      case BeginPop(_, kind) => WithTask(s, t, th.(pc := RBegin(kind)))
      case TryPush(_, v) => TryTake(s, t, WriteSide, WCredit(v), Idle)
      case Wait(_) =>
        var side := SideOf(th.pc);
        var (taken, b) := TakeSignal(BlockOf(s, side));
        if taken then WithTask(WithBlock(s, side, b), t, th.(pc := Granted(th.pc)))
        else WithTask(s, t, th.(place := Yielded(side)))
      case OutsideTake(_) =>
        var side := SideOf(th.pc);
        var (taken, b) := TakeSignal(BlockOf(s, side));
        if taken then Leak(WithTask(WithBlock(s, side, b), t, th.(pc := TimedOut(th.pc))), side) else s
      case OutsideExpire(_) => WithTask(s, t, th.(pc := TimedOut(th.pc)))
      case Park(_) => ExecPark(s, t)
      case Expire(_) => ExecExpire(s, t)
      case Push(_) =>
        WithTask(s.(queue := s.queue + [th.pc.v], pushed := s.pushed + [th.pc.v]), t, th.(pc := WPushed))
      case WakeReader(_) => Wake(WithTask(s, t, th.(pc := Idle)), ReadSide)
      case WakeWriter(_) =>
        Wake(Started(s, t), WriteSide)
      case Recheck(_) => Withdraw(s, t, RLoopRead)
      case LoopRead(_) => TryTake(s, t, ReadSide, RItem, RLoopWrite)
      case LoopWrite(_) => Withdraw(s, t, RYield)
      case Yield(_) =>
        var pc := if th.pc == RYield then RLoopRead else th.pc;
        WithTask(s, t, Thread(pc, if th.stale.On? then Yielded(th.stale.side) else Active, th.stale))
      case Forget(_) => WithTask(s, t, th.(stale := Fresh))
      case Pop(_) =>
        if s.queue == [] then s.(underflow := true)
        else
          var v := s.queue[0];
          WithTask(s.(queue := s.queue[1..], popped := s.popped + [v], got := s.got[t := v]), t, th.(pc := Idle))
      case _ => s
  }

  function AfterBegin<T>(kind: ReadKind): Pc<T> {
    match kind
    case Blocking => RWait
    case Timed => RTimed
    case Try => RLoopRead
  }

  /** `TryBlockWait` on one side, continuing at one of two places. */
  function TryTake<T>(s: State<T>, t: TaskId, side: Side, yes: Pc<T>, no: Pc<T>): State<T>
    requires t in s.tasks
  {
    var (taken, b) := TakeSignal(BlockOf(s, side));
    WithTask(WithBlock(s, side, b), t, s.tasks[t].(pc := if taken then yes else no))
  }

  /** A failed reader takes back the credit it gave; on success the call returns false. */
  function Withdraw<T>(s: State<T>, t: TaskId, no: Pc<T>): State<T>
    requires t in s.tasks
  {
    var s1 := TryTake(s, t, WriteSide, Idle, no);
    if TakeSignal(s.write).0 then s1.(withdrawn := s.withdrawn + 1) else s1
  }

  function ExecPark<T>(s: State<T>, t: TaskId): State<T>
    requires t in s.tasks && s.tasks[t].place.Yielded?
  {
    var side := s.tasks[t].place.side;
    var (parked, b) := AddWaitTask(BlockOf(s, side), t);
    var s1 := WithBlock(s, side, b);
    if parked then WithTask(s1, t, s.tasks[t].(place := Parked(side)))
    else Receive(s1, t, side, On(side))
  }

  function ExecExpire<T>(s: State<T>, t: TaskId): State<T>
    requires t in s.tasks && s.tasks[t].place.Parked?
  {
    var side := s.tasks[t].place.side;
    var b := BlockOf(s, side);
    if CancelWait(b, t).0 then
      WithTask(WithBlock(s, side, CancelWait(b, t).1), t, Thread(TimedOut(s.tasks[t].pc), Active, Fresh))
    else s
  }

  // ---- the invariant ----

  predicate HasCredit<T>(th: Thread<T>) { th.pc.WCredit? }
  predicate HasPushed<T>(th: Thread<T>) { th.pc.WPushed? }
  predicate HasItem<T>(th: Thread<T>) { th.pc.RItem? }
  /** A read that has given its credit and has not returned. */
  predicate Reading<T>(th: Thread<T>) {
    th.pc.RWait? || th.pc.RTimed? || th.pc.RRecheck? || th.pc.RLoopRead? || th.pc.RLoopWrite?
    || th.pc.RYield? || th.pc.RItem?
  }

  datatype Census = Census(credits: nat, pushers: nat, items: nat, readers: nat)

  ghost function CensusOf<T>(tasks: map<TaskId, Thread<T>>): Census {
    Census(Count(tasks, HasCredit), Count(tasks, HasPushed), Count(tasks, HasItem), Count(tasks, Reading))
  }

  /** How one task's move changes the census. */
  lemma CensusUpdate<T>(tasks: map<TaskId, Thread<T>>, t: TaskId, th: Thread<T>)
    ensures var c, c' := CensusOf(tasks), CensusOf(tasks[t := th]);
            && c'.credits == c.credits - One(t in tasks && HasCredit(tasks[t])) + One(HasCredit(th))
            && c'.pushers == c.pushers - One(t in tasks && HasPushed(tasks[t])) + One(HasPushed(th))
            && c'.items == c.items - One(t in tasks && HasItem(tasks[t])) + One(HasItem(th))
            && c'.readers == c.readers - One(t in tasks && Reading(tasks[t])) + One(Reading(th))
  {
    CountUpdate(tasks, t, th, HasCredit);
    CountUpdate(tasks, t, th, HasPushed);
    CountUpdate(tasks, t, th, HasItem);
    CountUpdate(tasks, t, th, Reading);
  }

  /** The wait queues hold exactly the parked tasks, and only a waiting task or a stale one is off
      the processor. */
  ghost predicate Placed<T>(s: State<T>) {
    && Fits(s.write, s.tasks, WriteSide)
    && Fits(s.read, s.tasks, ReadSide)
    && AllWellPlaced(s.tasks)
  }

  ghost predicate Fits<T>(b: Block, tasks: map<TaskId, Thread<T>>, side: Side) {
    Settled(b) && b.limit == SIZE_MAX && Queues(b.queue, tasks, side)
  }

  ghost predicate Queues<T>(queue: seq<TaskId>, tasks: map<TaskId, Thread<T>>, side: Side) {
    forall t :: t in queue <==> t in tasks && tasks[t].place == Parked(side)
  }

  ghost predicate AllWellPlaced<T>(tasks: map<TaskId, Thread<T>>) {
    forall t :: t in tasks ==> WellPlaced(tasks[t])
  }

  predicate WellPlaced<T>(th: Thread<T>) {
    th.place.Active? || Awaits(th.pc, th.place.side) || th.pc == Idle || th.pc == RLoopRead
  }

  /** The conservation laws: of values, of item signals, of write credit and of reads. */
  ghost predicate Balanced<T>(s: State<T>, capacity: nat) {
    Laws(s, CensusOf(s.tasks), capacity, 0, 0)
  }

  /** The laws with `w` write signals and `r` item signals still to be delivered. */
  ghost predicate Laws<T>(s: State<T>, c: Census, capacity: nat, w: nat, r: nat) {
    && s.pushed == s.popped + s.queue
    && |s.queue| == c.pushers + s.read.wakeup + c.items + s.readTally.leaked + s.readTally.dropped + r
    && s.write.wakeup + |s.pushed| + c.credits + s.writeTally.leaked + s.writeTally.dropped + s.withdrawn + w
       == capacity + s.started
    && s.started == |s.popped| + s.withdrawn + c.readers
    && !s.underflow
  }

  ghost predicate Inv<T>(s: State<T>, capacity: nat) {
    Placed(s) && Balanced(s, capacity)
  }

  lemma InitInv<T>(capacity: nat)
    ensures Inv(Init<T>(capacity), capacity)
  {
  }

  // ---- preservation of the placing, one block object at a time ----

  lemma FitsMove<T>(b: Block, tasks: map<TaskId, Thread<T>>, side: Side, t: TaskId, th: Thread<T>, wakeup: nat)
    requires Fits(b, tasks, side)
    requires t in tasks ==> tasks[t].place != Parked(side)
    requires th.place != Parked(side)
    requires wakeup <= b.wakeup || b.queue == []
    ensures Fits(b.(wakeup := wakeup), tasks[t := th], side)
  {
  }

  lemma FitsEnqueue<T>(b: Block, tasks: map<TaskId, Thread<T>>, side: Side, t: TaskId, th: Thread<T>)
    requires Fits(b, tasks, side) && b.wakeup == 0
    requires t in tasks && tasks[t].place != Parked(side)
    requires th.place == Parked(side)
    ensures Fits(b.(queue := b.queue + [t]), tasks[t := th], side)
  {
  }

  lemma FitsDequeue<T>(b: Block, tasks: map<TaskId, Thread<T>>, side: Side, th: Thread<T>)
    requires Fits(b, tasks, side) && b.queue != []
    requires th.place == Active
    ensures b.queue[0] in tasks && tasks[b.queue[0]].place == Parked(side)
    ensures Fits(b.(queue := b.queue[1..]), tasks[b.queue[0] := th], side)
  {
    assert b.queue[0] in b.queue;
    assert b.queue == [b.queue[0]] + b.queue[1..];
  }

  lemma FitsCancel<T>(b: Block, tasks: map<TaskId, Thread<T>>, side: Side, t: TaskId, th: Thread<T>)
    requires Fits(b, tasks, side)
    requires t in tasks && tasks[t].place == Parked(side)
    requires th.place == Active
    ensures CancelWait(b, t).0
    ensures Fits(CancelWait(b, t).1, tasks[t := th], side)
  {
  }

  function Other(side: Side): Side {
    if side == WriteSide then ReadSide else WriteSide
  }

  lemma PlacedBySides<T>(s: State<T>, side: Side)
    requires Fits(BlockOf(s, side), s.tasks, side)
    requires Fits(BlockOf(s, Other(side)), s.tasks, Other(side))
    requires AllWellPlaced(s.tasks)
    ensures Placed(s)
  {
  }

  /** Taking a stored signal, or finding none, and moving a task that is not parked. */
  lemma TakeKeepsPlaced<T>(s: State<T>, t: TaskId, side: Side, th: Thread<T>)
    requires Placed(s)
    requires t in s.tasks ==> !s.tasks[t].place.Parked?
    requires !th.place.Parked? && WellPlaced(th)
    ensures Placed(WithTask(WithBlock(s, side, TakeSignal(BlockOf(s, side)).1), t, th))
    ensures Placed(WithTask(s, t, th))
  {
    var b := BlockOf(s, side);
    FitsMove(b, s.tasks, side, t, th, TakeSignal(b).1.wakeup);
    FitsMove(b, s.tasks, side, t, th, b.wakeup);
    var other := BlockOf(s, Other(side));
    FitsMove(other, s.tasks, Other(side), t, th, other.wakeup);
  }

  lemma ParkKeepsPlaced<T>(s: State<T>, t: TaskId)
    requires Placed(s) && t in s.tasks && s.tasks[t].place.Yielded?
    requires BlockOf(s, s.tasks[t].place.side).wakeup == 0
    ensures Placed(ExecPark(s, t))
  {
    var side := s.tasks[t].place.side;
    var th := s.tasks[t].(place := Parked(side));
    FitsEnqueue(BlockOf(s, side), s.tasks, side, t, th);
    var other := BlockOf(s, Other(side));
    FitsMove(other, s.tasks, Other(side), t, th, other.wakeup);
    PlacedBySides(ExecPark(s, t), side);
  }

  lemma ExpireKeepsPlaced<T>(s: State<T>, t: TaskId)
    requires Placed(s) && t in s.tasks && s.tasks[t].place.Parked?
    ensures CancelWait(BlockOf(s, s.tasks[t].place.side), t).0
    ensures Placed(ExecExpire(s, t))
  {
    var side := s.tasks[t].place.side;
    var th := Thread(TimedOut(s.tasks[t].pc), Active, Fresh);
    FitsCancel(BlockOf(s, side), s.tasks, side, t, th);
    var other := BlockOf(s, Other(side));
    FitsMove(other, s.tasks, Other(side), t, th, other.wakeup);
    PlacedBySides(ExecExpire(s, t), side);
  }

  /** `Wakeup` finds the head of the queue parked, and leaves it active. */
  lemma WakeKeepsPlaced<T>(s: State<T>, side: Side)
    requires Placed(s)
    ensures BlockOf(s, side).queue != [] ==>
      BlockOf(s, side).queue[0] in s.tasks && s.tasks[BlockOf(s, side).queue[0]].place == Parked(side)
    ensures Placed(Wake(s, side))
  {
    var b := BlockOf(s, side);
    if b.queue != [] {
      var u := b.queue[0];
      assert u in b.queue;
      var th := Thread(Granted(s.tasks[u].pc), Active, Fresh);
      FitsDequeue(b, s.tasks, side, th);
      var other := BlockOf(s, Other(side));
      FitsMove(other, s.tasks, Other(side), u, th, other.wakeup);
      PlacedBySides(Wake(s, side), side);
    }
  }

  // ---- preservation of the laws ----

  function CensusClass<T>(th: Thread<T>): (bool, bool, bool, bool) {
    (HasCredit(th), HasPushed(th), HasItem(th), Reading(th))
  }

  /** A task moves without any block object, queue or history changing. */
  lemma MoveKeepsInv<T>(s: State<T>, t: TaskId, th: Thread<T>, capacity: nat)
    requires Inv(s, capacity)
    requires t in s.tasks ==> !s.tasks[t].place.Parked? && CensusClass(s.tasks[t]) == CensusClass(th)
    requires t !in s.tasks ==> CensusClass(th) == (false, false, false, false)
    requires !th.place.Parked? && WellPlaced(th)
    ensures Inv(WithTask(s, t, th), capacity)
  {
    TakeKeepsPlaced(s, t, WriteSide, th);
    CensusUpdate(s.tasks, t, th);
  }

  lemma TryTakeKeepsPlaced<T>(s: State<T>, t: TaskId, side: Side, yes: Pc<T>, no: Pc<T>)
    requires Placed(s) && t in s.tasks && s.tasks[t].place == Active
    ensures Placed(TryTake(s, t, side, yes, no))
  {
    if TakeSignal(BlockOf(s, side)).0 {
      TakeKeepsPlaced(s, t, side, s.tasks[t].(pc := yes));
    } else {
      TakeKeepsPlaced(s, t, side, s.tasks[t].(pc := no));
    }
  }

  lemma TryPushKeepsInv<T>(s: State<T>, t: TaskId, v: T, capacity: nat)
    requires Inv(s, capacity) && Enabled(s, TryPush(t, v))
    ensures Inv(Exec(s, TryPush(t, v)), capacity)
  {
    TryTakeKeepsPlaced(s, t, WriteSide, WCredit(v), Idle);
    CensusUpdate(s.tasks, t, s.tasks[t].(pc := WCredit(v)));
    CensusUpdate(s.tasks, t, s.tasks[t].(pc := Idle));
  }

  lemma WaitBalances<T>(s: State<T>, t: TaskId, capacity: nat)
    requires Balanced(s, capacity) && Enabled(s, Wait(t)) && TakeSignal(BlockOf(s, SideOf(s.tasks[t].pc))).0
    ensures Balanced(Exec(s, Wait(t)), capacity)
  {
    var th := s.tasks[t];
    CensusUpdate(s.tasks, t, th.(pc := Granted(th.pc)));
  }

  lemma WaitKeepsInv<T>(s: State<T>, t: TaskId, capacity: nat)
    requires Inv(s, capacity) && Enabled(s, Wait(t))
    ensures Inv(Exec(s, Wait(t)), capacity)
  {
    var th := s.tasks[t];
    var side := SideOf(th.pc);
    if TakeSignal(BlockOf(s, side)).0 {
      TakeKeepsPlaced(s, t, side, th.(pc := Granted(th.pc)));
      WaitBalances(s, t, capacity);
    } else {
      MoveKeepsInv(s, t, th.(place := Yielded(side)), capacity);
    }
  }

  lemma OutsideTakeBalances<T>(s: State<T>, t: TaskId, capacity: nat)
    requires Balanced(s, capacity) && Enabled(s, OutsideTake(t))
    ensures Balanced(Exec(s, OutsideTake(t)), capacity)
  {
    var th := s.tasks[t].(pc := TimedOut(s.tasks[t].pc));
    var side := SideOf(s.tasks[t].pc);
    if BlockOf(s, side).wakeup > 0 {
      SameBalance(s, WithTask(s, t, th), t, th, capacity);
      SpentBalances(WithTask(s, t, th), side, capacity);
    }
  }

  /** A stored signal is spent for nothing. */
  lemma SpentBalances<T>(s: State<T>, side: Side, capacity: nat)
    requires Balanced(s, capacity) && BlockOf(s, side).wakeup > 0
    ensures Balanced(Leak(WithBlock(s, side, TakeSignal(BlockOf(s, side)).1), side), capacity)
  {
  }

  lemma OutsideTakeKeepsInv<T>(s: State<T>, t: TaskId, capacity: nat)
    requires Inv(s, capacity) && Enabled(s, OutsideTake(t))
    ensures Inv(Exec(s, OutsideTake(t)), capacity)
  {
    var th := s.tasks[t].(pc := TimedOut(s.tasks[t].pc));
    TakeKeepsPlaced(s, t, SideOf(s.tasks[t].pc), th);
    OutsideTakeBalances(s, t, capacity);
  }

  /** Delivering a signal to a task off the processor settles what was owed. */
  lemma ReceivePays<T>(s: State<T>, t: TaskId, side: Side, stale: Stale, capacity: nat)
    requires t in s.tasks && s.tasks[t].place in {Yielded(side), Parked(side)} && WellPlaced(s.tasks[t])
    requires Laws(s, CensusOf(s.tasks), capacity, One(side == WriteSide), One(side == ReadSide))
    ensures Balanced(Receive(s, t, side, stale), capacity)
  {
    CensusUpdate(s.tasks, t, Thread(Granted(s.tasks[t].pc), Active, stale));
  }

  lemma ParkKeepsInv<T>(s: State<T>, t: TaskId, capacity: nat)
    requires Inv(s, capacity) && Enabled(s, Park(t))
    ensures Inv(Exec(s, Park(t)), capacity)
  {
    var th := s.tasks[t];
    var side := th.place.side;
    if BlockOf(s, side).wakeup > 0 {
      TakeKeepsPlaced(s, t, side, Thread(Granted(th.pc), Active, On(side)));
      ReceivePays(WithBlock(s, side, TakeSignal(BlockOf(s, side)).1), t, side, On(side), capacity);
    } else {
      ParkKeepsPlaced(s, t);
      CensusUpdate(s.tasks, t, th.(place := Parked(side)));
    }
  }

  /** A task moves on within its class and no counter changes. */
  lemma SameBalance<T>(s: State<T>, s': State<T>, t: TaskId, th: Thread<T>, capacity: nat)
    requires Balanced(s, capacity) && t in s.tasks && CensusClass(s.tasks[t]) == CensusClass(th)
    requires s' == s.(tasks := s.tasks[t := th], write := s'.write, read := s'.read)
    requires s'.write.wakeup == s.write.wakeup && s'.read.wakeup == s.read.wakeup
    ensures Balanced(s', capacity)
  {
    CensusUpdate(s.tasks, t, th);
  }

  lemma ExpireBalances<T>(s: State<T>, t: TaskId, capacity: nat)
    requires Balanced(s, capacity) && Enabled(s, Expire(t))
    ensures Balanced(ExecExpire(s, t), capacity)
  {
    var th := Thread(TimedOut(s.tasks[t].pc), Active, Fresh);
    SameClass(s, t, th);
    if CancelWait(BlockOf(s, s.tasks[t].place.side), t).0 {
      SameBalance(s, ExecExpire(s, t), t, th, capacity);
    }
  }

  lemma SameClass<T>(s: State<T>, t: TaskId, th: Thread<T>)
    requires Enabled(s, Expire(t)) && th.pc == TimedOut(s.tasks[t].pc)
    ensures HasCredit(s.tasks[t]) == HasCredit(th) && HasPushed(s.tasks[t]) == HasPushed(th)
    ensures HasItem(s.tasks[t]) == HasItem(th) && Reading(s.tasks[t]) == Reading(th)
  {
  }

  lemma ExpireKeepsInv<T>(s: State<T>, t: TaskId, capacity: nat)
    requires Inv(s, capacity) && Enabled(s, Expire(t))
    ensures Inv(Exec(s, Expire(t)), capacity)
  {
    ExpireKeepsPlaced(s, t);
    ExpireBalances(s, t, capacity);
  }

  lemma PushKeepsInv<T>(s: State<T>, t: TaskId, capacity: nat)
    requires Inv(s, capacity) && Enabled(s, Push(t))
    ensures Inv(Exec(s, Push(t)), capacity)
  {
    TakeKeepsPlaced(s, t, WriteSide, s.tasks[t].(pc := WPushed));
    CensusUpdate(s.tasks, t, s.tasks[t].(pc := WPushed));
  }

  lemma PopMeetsItem<T>(s: State<T>, t: TaskId, capacity: nat)
    requires Balanced(s, capacity) && Enabled(s, Pop(t))
    ensures s.queue != []
  {
    CountMember(s.tasks, t, HasItem);
  }

  lemma PopBalances<T>(s: State<T>, t: TaskId, capacity: nat)
    requires Balanced(s, capacity) && Enabled(s, Pop(t)) && s.queue != []
    ensures Balanced(Exec(s, Pop(t)), capacity)
  {
    CensusUpdate(s.tasks, t, s.tasks[t].(pc := Idle));
  }

  /** A reader that holds an item signal finds the queue non-empty. */
  lemma PopKeepsInv<T>(s: State<T>, t: TaskId, capacity: nat)
    requires Inv(s, capacity) && Enabled(s, Pop(t))
    ensures s.queue != []
    ensures Inv(Exec(s, Pop(t)), capacity)
  {
    PopMeetsItem(s, t, capacity);
    TakeKeepsPlaced(s, t, WriteSide, s.tasks[t].(pc := Idle));
    PopBalances(s, t, capacity);
  }

  lemma WithdrawKeepsInv<T>(s: State<T>, t: TaskId, no: Pc<T>, capacity: nat)
    requires Inv(s, capacity) && t in s.tasks && s.tasks[t].place == Active
    requires s.tasks[t].pc.RRecheck? || s.tasks[t].pc.RLoopWrite?
    requires no.RLoopRead? || no.RYield?
    ensures Inv(Withdraw(s, t, no), capacity)
  {
    TryTakeKeepsPlaced(s, t, WriteSide, Idle, no);
    CensusUpdate(s.tasks, t, s.tasks[t].(pc := Idle));
    CensusUpdate(s.tasks, t, s.tasks[t].(pc := no));
  }

  lemma LoopReadKeepsInv<T>(s: State<T>, t: TaskId, capacity: nat)
    requires Inv(s, capacity) && Enabled(s, LoopRead(t))
    ensures Inv(Exec(s, LoopRead(t)), capacity)
  {
    TryTakeKeepsPlaced(s, t, ReadSide, RItem, RLoopWrite);
    CensusUpdate(s.tasks, t, s.tasks[t].(pc := RItem));
    CensusUpdate(s.tasks, t, s.tasks[t].(pc := RLoopWrite));
  }

  lemma WakePays<T>(s: State<T>, side: Side, capacity: nat)
    requires Placed(s)
    requires Laws(s, CensusOf(s.tasks), capacity, One(side == WriteSide), One(side == ReadSide))
    ensures Inv(Wake(s, side), capacity)
  {
    var b := BlockOf(s, side);
    WakeKeepsPlaced(s, side);
    if b.queue != [] {
      ReceivePays(WithBlock(s, side, Wakeup(b).1), b.queue[0], side, Fresh, capacity);
    }
  }

  lemma WakeReaderKeepsInv<T>(s: State<T>, t: TaskId, capacity: nat)
    requires Inv(s, capacity) && Enabled(s, WakeReader(t))
    ensures Inv(Exec(s, WakeReader(t)), capacity)
  {
    var th := s.tasks[t].(pc := Idle);
    TakeKeepsPlaced(s, t, ReadSide, th);
    CensusUpdate(s.tasks, t, th);
    WakePays(WithTask(s, t, th), ReadSide, capacity);
  }

  /** A reader's first move gives one write credit that its `Wakeup` then delivers. */
  function Started<T>(s: State<T>, t: TaskId): State<T>
    requires t in s.tasks && s.tasks[t].pc.RBegin?
  {
    WithTask(s.(started := s.started + 1), t, s.tasks[t].(pc := AfterBegin(s.tasks[t].pc.kind)))
  }

  lemma StartedOwes<T>(s: State<T>, t: TaskId, capacity: nat)
    requires Inv(s, capacity) && Enabled(s, WakeWriter(t))
    ensures Placed(Started(s, t))
    ensures Laws(Started(s, t), CensusOf(Started(s, t).tasks), capacity, 1, 0)
  {
    var th := s.tasks[t].(pc := AfterBegin(s.tasks[t].pc.kind));
    TakeKeepsPlaced(s, t, WriteSide, th);
    CensusUpdate(s.tasks, t, th);
  }

  lemma WakeWriterKeepsInv<T>(s: State<T>, t: TaskId, capacity: nat)
    requires Inv(s, capacity) && Enabled(s, WakeWriter(t))
    ensures Inv(Exec(s, WakeWriter(t)), capacity)
  {
    StartedOwes(s, t, capacity);
    WakePays(Started(s, t), WriteSide, capacity);
  }

  /** Steps inside one task that no census counts. */
  lemma LocalStepKeepsInv<T>(s: State<T>, step: Step<T>, capacity: nat)
    requires Inv(s, capacity) && Enabled(s, step)
    requires step.Spawn? || step.BeginPush? || step.BeginTimedPush? || step.BeginPop? || step.OutsideExpire?
             || step.Yield? || step.Forget?
    ensures Inv(Exec(s, step), capacity)
  {
    MoveKeepsInv(s, step.t, Exec(s, step).tasks[step.t], capacity);
  }

  lemma WaitStepKeepsInv<T>(s: State<T>, step: Step<T>, capacity: nat)
    requires Inv(s, capacity) && Enabled(s, step)
    requires step.TryPush? || step.Wait? || step.OutsideTake? || step.Park? || step.Expire?
    ensures Inv(Exec(s, step), capacity)
  {
    match step
    case TryPush(t, v) => TryPushKeepsInv(s, t, v, capacity);
    case Wait(t) => WaitKeepsInv(s, t, capacity);
    case OutsideTake(t) => OutsideTakeKeepsInv(s, t, capacity);
    case Park(t) => ParkKeepsInv(s, t, capacity);
    case Expire(t) => ExpireKeepsInv(s, t, capacity);
  }

  lemma TransferKeepsInv<T>(s: State<T>, step: Step<T>, capacity: nat)
    requires Inv(s, capacity) && Enabled(s, step)
    requires step.Push? || step.WakeReader? || step.WakeWriter? || step.Recheck? || step.LoopRead? || step.LoopWrite?
             || step.Pop?
    ensures Inv(Exec(s, step), capacity)
  {
    match step
    case Push(t) => PushKeepsInv(s, t, capacity);
    case WakeReader(t) => WakeReaderKeepsInv(s, t, capacity);
    case WakeWriter(t) => WakeWriterKeepsInv(s, t, capacity);
    case Recheck(t) => WithdrawKeepsInv(s, t, RLoopRead, capacity);
    case LoopRead(t) => LoopReadKeepsInv(s, t, capacity);
    case LoopWrite(t) => WithdrawKeepsInv(s, t, RYield, capacity);
    case Pop(t) => PopKeepsInv(s, t, capacity);
  }

  lemma StepKeepsInv<T>(s: State<T>, step: Step<T>, capacity: nat)
    requires Inv(s, capacity) && Enabled(s, step)
    ensures Inv(Exec(s, step), capacity)
  {
    if step.TryPush? || step.Wait? || step.OutsideTake? || step.Park? || step.Expire? {
      WaitStepKeepsInv(s, step, capacity);
    } else if step.Spawn? || step.BeginPush? || step.BeginTimedPush? || step.BeginPop? || step.OutsideExpire?
              || step.Yield? || step.Forget? {
      LocalStepKeepsInv(s, step, capacity);
    } else {
      TransferKeepsInv(s, step, capacity);
    }
  }

  // ---- every run ----

  ghost predicate IsRun<T>(run: seq<State<T>>, steps: seq<Step<T>>, capacity: nat) {
    && |run| == |steps| + 1 && run[0] == Init(capacity)
    && forall i :: 0 <= i < |steps| ==> Enabled(run[i], steps[i]) && run[i + 1] == Exec(run[i], steps[i])
  }

  lemma {:induction false} RunKeepsInv<T>(run: seq<State<T>>, steps: seq<Step<T>>, capacity: nat, i: nat)
    requires IsRun(run, steps, capacity) && i < |run|
    ensures Inv(run[i], capacity)
  {
    if i == 0 {
      InitInv<T>(capacity);
    } else {
      RunKeepsInv(run, steps, capacity, i - 1);
      StepKeepsInv(run[i - 1], steps[i - 1], capacity);
    }
  }

  /** First in, first out, over every run: the values popped are a prefix of the values pushed, the
      rest is the queue, and no reader ever pops an empty queue. */
  lemma Fifo<T>(run: seq<State<T>>, steps: seq<Step<T>>, capacity: nat, i: nat)
    requires IsRun(run, steps, capacity) && i < |run|
    ensures run[i].popped <= run[i].pushed
    ensures run[i].pushed == run[i].popped + run[i].queue
    ensures !run[i].underflow
    ensures forall t :: Enabled(run[i], Pop(t)) ==> run[i].queue != []
  {
    RunKeepsInv(run, steps, capacity, i);
    forall t | Enabled(run[i], Pop(t)) ensures run[i].queue != [] {
      PopKeepsInv(run[i], t, capacity);
    }
  }

  /** All write credit ever handed out, stored or lost. */
  ghost function Credit<T>(s: State<T>): nat {
    s.write.wakeup + |s.pushed| + Count(s.tasks, HasCredit) + s.writeTally.leaked + s.writeTally.dropped
  }

  /** Credit is capacity plus the reads started and not withdrawn; so the queue never outgrows the
      capacity by more than the readers in flight. */
  lemma CreditConserved<T>(run: seq<State<T>>, steps: seq<Step<T>>, capacity: nat, i: nat)
    requires IsRun(run, steps, capacity) && i < |run|
    ensures Credit(run[i]) == capacity + run[i].started - run[i].withdrawn
    ensures run[i].started == |run[i].popped| + run[i].withdrawn + Count(run[i].tasks, Reading)
    ensures |run[i].queue| <= capacity + Count(run[i].tasks, Reading)
  {
    RunKeepsInv(run, steps, capacity, i);
  }

  lemma CreditOf<T>(s: State<T>, step: Step<T>, capacity: nat)
    requires Inv(s, capacity) && Enabled(s, step)
    ensures Credit(s) == capacity + s.started - s.withdrawn
    ensures var s' := Exec(s, step); Credit(s') == capacity + s'.started - s'.withdrawn
  {
    StepKeepsInv(s, step, capacity);
  }

  lemma StartAddsCredit<T>(s: State<T>, t: TaskId, capacity: nat)
    requires Inv(s, capacity) && Enabled(s, WakeWriter(t))
    ensures Credit(Exec(s, WakeWriter(t))) == Credit(s) + 1
  {
    CreditOf(s, WakeWriter(t), capacity);
  }

  lemma WithdrawReturnsCredit<T>(s: State<T>, step: Step<T>, capacity: nat)
    requires Inv(s, capacity) && Enabled(s, step) && (step.Recheck? || step.LoopWrite?)
    requires Exec(s, step).tasks[step.t].pc == Idle
    ensures Credit(Exec(s, step)) == Credit(s) - 1
  {
    CreditOf(s, step, capacity);
  }

  /** The value a failed pop leaves behind: starting it adds one credit, and the step on which it
      returns false takes exactly one away, whatever ran in between. */
  lemma FailedPopRestoresCredit<T>(s: State<T>, t: TaskId, capacity: nat)
    requires Inv(s, capacity)
    ensures Enabled(s, WakeWriter(t)) ==> Credit(Exec(s, WakeWriter(t))) == Credit(s) + 1
    ensures Enabled(s, Recheck(t)) && Exec(s, Recheck(t)).tasks[t].pc == Idle
            ==> Credit(Exec(s, Recheck(t))) == Credit(s) - 1
    ensures Enabled(s, LoopWrite(t)) && Exec(s, LoopWrite(t)).tasks[t].pc == Idle
            ==> Credit(Exec(s, LoopWrite(t))) == Credit(s) - 1
  {
    if Enabled(s, WakeWriter(t)) {
      StartAddsCredit(s, t, capacity);
    }
    if Enabled(s, Recheck(t)) && Exec(s, Recheck(t)).tasks[t].pc == Idle {
      WithdrawReturnsCredit(s, Recheck(t), capacity);
    }
    if Enabled(s, LoopWrite(t)) && Exec(s, LoopWrite(t)).tasks[t].pc == Idle {
      WithdrawReturnsCredit(s, LoopWrite(t), capacity);
    }
  }

  /** No lost wakeup: while a reader is parked every queued value is accounted for by a writer about
      to signal, a reader about to pop, or a signal that was lost; and while a writer is parked all
      credit is in use. */
  lemma NoLostWakeup<T>(run: seq<State<T>>, steps: seq<Step<T>>, capacity: nat, i: nat, t: TaskId)
    requires IsRun(run, steps, capacity) && i < |run| && t in run[i].tasks
    ensures run[i].tasks[t].place == Parked(ReadSide) ==>
      |run[i].queue| == Count(run[i].tasks, HasPushed) + Count(run[i].tasks, HasItem)
                        + run[i].readTally.leaked + run[i].readTally.dropped
    ensures run[i].tasks[t].place == Parked(WriteSide) ==> run[i].write.wakeup == 0
  {
    RunKeepsInv(run, steps, capacity, i);
  }

  ghost predicate Quiet<T>(s: State<T>) {
    forall t :: t in s.tasks ==> s.tasks[t].pc == Idle
  }

  lemma QuietCensus<T>(s: State<T>)
    requires Quiet(s)
    ensures CensusOf(s.tasks) == Census(0, 0, 0, 0)
  {
    assert Having(s.tasks, HasCredit) == {};
    assert Having(s.tasks, HasPushed) == {};
    assert Having(s.tasks, HasItem) == {};
    assert Having(s.tasks, Reading) == {};
  }

  // ---- where signals are lost ----

  /** The step is a `Wakeup` of that side. */
  predicate Signals<T>(step: Step<T>, side: Side) {
    if side == WriteSide then step.WakeWriter? else step.WakeReader?
  }

  /** The step loses a signal of that side: a timed wait outside a coroutine takes a stored one and
      reports a timeout, `AddWaitTask` finds one for a task that waits for nothing there, or `Wakeup`
      hands one to such a task. */
  predicate Leaks<T>(s: State<T>, step: Step<T>, side: Side)
    requires Enabled(s, step)
  {
    var b := BlockOf(s, side);
    if step.OutsideTake? then SideOf(s.tasks[step.t].pc) == side && b.wakeup > 0
    else if step.Park? then s.tasks[step.t].place.side == side && !Awaits(s.tasks[step.t].pc, side) && b.wakeup > 0
    else Signals(step, side) && b.queue != [] && b.queue[0] in s.tasks && !Awaits(s.tasks[b.queue[0]].pc, side)
  }

  /** The step's signal is refused because the counter is full. */
  predicate Drops<T>(s: State<T>, step: Step<T>, side: Side) {
    var b := BlockOf(s, side);
    Signals(step, side) && b.queue == [] && b.wakeup >= b.limit
  }

  function TallyOf<T>(s: State<T>, side: Side): Tally {
    if side == WriteSide then s.writeTally else s.readTally
  }

  function After(t: Tally, leaks: bool, drops: bool): Tally {
    Tally(t.leaked + One(leaks), t.dropped + One(drops))
  }

  /** `Wakeup` of one side by an active task, seen from both sides. */
  lemma WakeTally<T>(s: State<T>, s1: State<T>, step: Step<T>, own: Side, side: Side)
    requires Placed(s) && Enabled(s, step) && Signals(step, own) && step.t in s1.tasks
    requires s1.write == s.write && s1.read == s.read && s1.writeTally == s.writeTally && s1.readTally == s.readTally
    requires s1.tasks == s.tasks[step.t := s1.tasks[step.t]]
    ensures TallyOf(Wake(s1, own), side) == After(TallyOf(s, side), Leaks(s, step, side), Drops(s, step, side))
  {
    var b := BlockOf(s, own);
    if b.queue != [] {
      assert b.queue[0] in b.queue;
    }
  }

  lemma WakeStepTally<T>(s: State<T>, step: Step<T>, side: Side)
    requires Placed(s) && Enabled(s, step) && (step.WakeReader? || step.WakeWriter?)
    ensures TallyOf(Exec(s, step), side) == After(TallyOf(s, side), Leaks(s, step, side), Drops(s, step, side))
  {
    if step.WakeReader? {
      WakeTally(s, WithTask(s, step.t, s.tasks[step.t].(pc := Idle)), step, ReadSide, side);
    } else {
      WakeTally(s, Started(s, step.t), step, WriteSide, side);
    }
  }

  /** The tallies grow by exactly the steps named above. */
  lemma StepTally<T>(s: State<T>, step: Step<T>, side: Side)
    requires Placed(s) && Enabled(s, step)
    ensures TallyOf(Exec(s, step), side) == After(TallyOf(s, side), Leaks(s, step, side), Drops(s, step, side))
  {
    if step.WakeReader? || step.WakeWriter? {
      WakeStepTally(s, step, side);
    }
  }

  /** How many of the first `i` steps lose a signal of that side. */
  ghost function Lost<T>(run: seq<State<T>>, steps: seq<Step<T>>, capacity: nat, side: Side, i: nat): Tally
    requires IsRun(run, steps, capacity) && i <= |steps|
  {
    if i == 0 then Tally(0, 0)
    else After(Lost(run, steps, capacity, side, i - 1), Leaks(run[i - 1], steps[i - 1], side), Drops(run[i - 1], steps[i - 1], side))
  }

  /** Over every run the signals lost are exactly those steps, so nothing is lost if and only if none
      of them is taken. */
  lemma {:induction false} LossIsExact<T>(run: seq<State<T>>, steps: seq<Step<T>>, capacity: nat, side: Side, i: nat)
    requires IsRun(run, steps, capacity) && i < |run|
    ensures TallyOf(run[i], side) == Lost(run, steps, capacity, side, i)
    ensures TallyOf(run[i], side).leaked == 0 <==> forall j :: 0 <= j < i ==> !Leaks(run[j], steps[j], side)
    ensures TallyOf(run[i], side).dropped == 0 <==> forall j :: 0 <= j < i ==> !Drops(run[j], steps[j], side)
  {
    if i > 0 {
      LossIsExact(run, steps, capacity, side, i - 1);
      RunKeepsInv(run, steps, capacity, i - 1);
      StepTally(run[i - 1], steps[i - 1], side);
    }
  }

  ghost predicate LosesNothing<T>(run: seq<State<T>>, steps: seq<Step<T>>, capacity: nat, side: Side, i: nat)
    requires IsRun(run, steps, capacity) && i <= |steps|
  {
    forall j :: 0 <= j < i ==> !Leaks(run[j], steps[j], side) && !Drops(run[j], steps[j], side)
  }

  /** When no operation is under way, free room and stored values add up to the capacity exactly
      when no step lost a write signal, and every value can be read exactly when none lost an item
      signal. */
  lemma QuietBalance<T>(run: seq<State<T>>, steps: seq<Step<T>>, capacity: nat, i: nat)
    requires IsRun(run, steps, capacity) && i < |run| && Quiet(run[i])
    ensures run[i].write.wakeup + |run[i].queue| == capacity <==> LosesNothing(run, steps, capacity, WriteSide, i)
    ensures run[i].read.wakeup == |run[i].queue| <==> LosesNothing(run, steps, capacity, ReadSide, i)
  {
    RunKeepsInv(run, steps, capacity, i);
    QuietCensus(run[i]);
    LossIsExact(run, steps, capacity, WriteSide, i);
    LossIsExact(run, steps, capacity, ReadSide, i);
  }

  /** No timed wait outside a coroutine takes a signal, and no task yields while stale. */
  predicate Disciplined<T>(s: State<T>, step: Step<T>) {
    && !step.OutsideTake?
    && (step.Yield? && step.t in s.tasks ==> s.tasks[step.t].stale == Fresh)
  }

  ghost predicate NothingLeaked<T>(s: State<T>) {
    && s.writeTally.leaked == 0 && s.readTally.leaked == 0
    && AllWaiting(s.tasks)
  }

  ghost predicate AllWaiting<T>(tasks: map<TaskId, Thread<T>>) {
    forall t :: t in tasks ==> tasks[t].place.Active? || Awaits(tasks[t].pc, tasks[t].place.side)
  }

  lemma WakeAllWaiting<T>(s: State<T>, side: Side)
    requires Placed(s) && AllWaiting(s.tasks)
    ensures AllWaiting(Wake(s, side).tasks)
  {
  }

  lemma DisciplinedWake<T>(s: State<T>, step: Step<T>)
    requires AllWaiting(s.tasks) && Placed(s) && Enabled(s, step) && (step.WakeReader? || step.WakeWriter?)
    ensures AllWaiting(Exec(s, step).tasks)
  {
    var th := if step.WakeReader? then s.tasks[step.t].(pc := Idle) else Started(s, step.t).tasks[step.t];
    TakeKeepsPlaced(s, step.t, ReadSide, th);
    WakeAllWaiting(if step.WakeReader? then WithTask(s, step.t, th) else Started(s, step.t),
                   if step.WakeReader? then ReadSide else WriteSide);
  }

  lemma DisciplinedStep<T>(s: State<T>, step: Step<T>)
    requires AllWaiting(s.tasks) && Placed(s) && Enabled(s, step) && Disciplined(s, step)
    ensures AllWaiting(Exec(s, step).tasks)
  {
    if step.WakeReader? || step.WakeWriter? {
      DisciplinedWake(s, step);
    }
  }

  /** Where everybody off the processor waits for that side, a disciplined step leaks nothing. */
  lemma DisciplinedKeeps<T>(s: State<T>, step: Step<T>, side: Side)
    requires Placed(s) && AllWaiting(s.tasks) && Enabled(s, step) && Disciplined(s, step)
    ensures !Leaks(s, step, side)
  {
    var q := BlockOf(s, side).queue;
    assert q != [] ==> q[0] in q;
  }

  /** A caller can be sure of losing nothing: signals leak only after an undisciplined step. */
  lemma {:induction false} DisciplinedRunLeaksNothing<T>(run: seq<State<T>>, steps: seq<Step<T>>, capacity: nat, i: nat)
    requires IsRun(run, steps, capacity) && i < |run|
    requires forall j :: 0 <= j < i ==> Disciplined(run[j], steps[j])
    ensures NothingLeaked(run[i])
  {
    if i > 0 {
      DisciplinedRunLeaksNothing(run, steps, capacity, i - 1);
      RunKeepsInv(run, steps, capacity, i - 1);
      DisciplinedStep(run[i - 1], steps[i - 1]);
      DisciplinedKeeps(run[i - 1], steps[i - 1], WriteSide);
      DisciplinedKeeps(run[i - 1], steps[i - 1], ReadSide);
      StepTally(run[i - 1], steps[i - 1], WriteSide);
      StepTally(run[i - 1], steps[i - 1], ReadSide);
    }
  }

  /** Signals do leak: a task that `AddWaitTask` refused stays stale, and while a signal is stored
      each of its plain yields takes one for nothing. */
  lemma StaleYieldLeaks<T>(s: State<T>, t: TaskId, side: Side, capacity: nat)
    requires Inv(s, capacity)
    requires t in s.tasks && s.tasks[t] == Thread(Idle, Active, On(side))
    requires BlockOf(s, side).wakeup > 0
    ensures Enabled(s, Yield(t)) && Enabled(Exec(s, Yield(t)), Park(t))
    ensures var s' := Exec(Exec(s, Yield(t)), Park(t));
            s' == Leak(WithBlock(s, side, TakeSignal(BlockOf(s, side)).1), side)
  {
    var s1 := Exec(s, Yield(t));
    assert s1.tasks[t := s.tasks[t]] == s.tasks;
  }

  // ---- runs that lose a signal ----

  lemma Extend<T>(run: seq<State<T>>, steps: seq<Step<T>>, capacity: nat, step: Step<T>)
    requires IsRun(run, steps, capacity) && Enabled(run[|steps|], step)
    ensures IsRun(run + [Exec(run[|steps|], step)], steps + [step], capacity)
  {
  }

  lemma Play<T>(run: seq<State<T>>, steps: seq<Step<T>>, capacity: nat, step: Step<T>, to: State<T>)
    returns (run': seq<State<T>>, steps': seq<Step<T>>)
    requires IsRun(run, steps, capacity) && Enabled(run[|steps|], step) && Exec(run[|steps|], step) == to
    ensures IsRun(run', steps', capacity) && run' == run + [to] && run'[|steps'|] == to
  {
    Extend(run, steps, capacity, step);
    run', steps' := run + [to], steps + [step];
  }

  /** The states of the runs below: tasks 0 and 1, room for nothing, everything else as told. */
  function Told<T>(write: nat, th0: Thread<T>, th1: Thread<T>, queue: seq<T>, pushed: seq<T>, popped: seq<T>,
                   started: nat): State<T>
  {
    State(Block(write, SIZE_MAX, []), Block(0, SIZE_MAX, []), queue, map[0 := th0, 1 := th1],
          pushed, popped, started, 0, Tally(0, 0), Tally(0, 0), false, if popped == [] then map[] else map[1 := popped[0]])
  }

  lemma SpawnedIsReachable<T>() returns (run: seq<State<T>>, steps: seq<Step<T>>)
    ensures IsRun(run, steps, 0)
    ensures run[|steps|] == Told(0, Thread(Idle, Active, Fresh), Thread(Idle, Active, Fresh), [], [], [], 0)
  {
    var idle: Thread<T> := Thread(Idle, Active, Fresh);
    run, steps := [Init(0)], [];
    run, steps := Play(run, steps, 0, Spawn(0), Init<T>(0).(tasks := map[0 := idle]));
    run, steps := Play(run, steps, 0, Spawn(1), Told(0, idle, idle, [], [], [], 0));
  }

  /** Writer 0 is about to park: there is no credit. */
  lemma WriterYieldsIsReachable<T>(v: T) returns (run: seq<State<T>>, steps: seq<Step<T>>)
    ensures IsRun(run, steps, 0)
    ensures run[|steps|] == Told(0, Thread(WWait(v), Yielded(WriteSide), Fresh), Thread(Idle, Active, Fresh), [], [], [], 0)
  {
    var idle: Thread<T> := Thread(Idle, Active, Fresh);
    run, steps := SpawnedIsReachable();
    run, steps := Play(run, steps, 0, BeginPush(0, v), Told(0, idle.(pc := WWait(v)), idle, [], [], [], 0));
    run, steps := Play(run, steps, 0, Step.Wait(0), Told(0, Thread(WWait(v), Yielded(WriteSide), Fresh), idle, [], [], [], 0));
  }

  /** Reader 1 arrives with a credit, so `AddWaitTask` refuses writer 0. */
  lemma RefusedIsReachable<T>(v: T) returns (run: seq<State<T>>, steps: seq<Step<T>>)
    ensures IsRun(run, steps, 0)
    ensures run[|steps|] == Told(0, Thread(WCredit(v), Active, On(WriteSide)), Thread(RWait, Active, Fresh), [], [], [], 1)
  {
    var y: Thread<T> := Thread(WWait(v), Yielded(WriteSide), Fresh);
    var r: Thread<T> := Thread(RWait, Active, Fresh);
    run, steps := WriterYieldsIsReachable(v);
    run, steps := Play(run, steps, 0, BeginPop(1, Blocking), Told(0, y, r.(pc := RBegin(Blocking)), [], [], [], 0));
    run, steps := Play(run, steps, 0, WakeWriter(1), Told(1, y, r, [], [], [], 1));
    run, steps := Play(run, steps, 0, Park(0), Told(0, Thread(WCredit(v), Active, On(WriteSide)), r, [], [], [], 1));
  }

  /** The value is on its way to reader 1, with its signal. */
  lemma DeliveredIsReachable<T>(v: T) returns (run: seq<State<T>>, steps: seq<Step<T>>)
    ensures IsRun(run, steps, 0)
    ensures run[|steps|] == Told(0, Thread(Idle, Active, On(WriteSide)), Thread(RWait, Active, Fresh), [v], [v], [], 1)
                            .(read := Block(1, SIZE_MAX, []))
  {
    var stale: Thread<T> := Thread(Idle, Active, On(WriteSide));
    var r: Thread<T> := Thread(RWait, Active, Fresh);
    run, steps := RefusedIsReachable(v);
    run, steps := Play(run, steps, 0, Push(0), Told(0, stale.(pc := WPushed), r, [v], [v], [], 1));
    run, steps := Play(run, steps, 0, WakeReader(0), Told(0, stale, r, [v], [v], [], 1).(read := Block(1, SIZE_MAX, [])));
  }

  /** Reader 1 takes it: both are idle, and 0 is stale. */
  lemma StaleIdleIsReachable<T>(v: T) returns (run: seq<State<T>>, steps: seq<Step<T>>)
    ensures IsRun(run, steps, 0)
    ensures run[|steps|] == Told(0, Thread(Idle, Active, On(WriteSide)), Thread(Idle, Active, Fresh), [], [v], [v], 1)
  {
    var stale: Thread<T> := Thread(Idle, Active, On(WriteSide));
    var r: Thread<T> := Thread(RItem, Active, Fresh);
    run, steps := DeliveredIsReachable(v);
    run, steps := Play(run, steps, 0, Step.Wait(1), Told(0, stale, r, [v], [v], [], 1));
    run, steps := Play(run, steps, 0, Pop(1), Told(0, stale, r.(pc := Idle), [], [v], [v], 1));
  }

  /** Reader 1 comes again and leaves a credit. */
  lemma CreditStoredIsReachable<T>(v: T) returns (run: seq<State<T>>, steps: seq<Step<T>>)
    ensures IsRun(run, steps, 0)
    ensures run[|steps|] == Told(1, Thread(Idle, Active, On(WriteSide)), Thread(RWait, Active, Fresh), [], [v], [v], 2)
  {
    var stale: Thread<T> := Thread(Idle, Active, On(WriteSide));
    var r: Thread<T> := Thread(RWait, Active, Fresh);
    run, steps := StaleIdleIsReachable(v);
    run, steps := Play(run, steps, 0, BeginPop(1, Blocking), Told(0, stale, r.(pc := RBegin(Blocking)), [], [v], [v], 1));
    run, steps := Play(run, steps, 0, WakeWriter(1), Told(1, stale, r, [], [v], [v], 2));
  }

  /** The stored credit is lost: the stale task yields. The reader waits, and there is no credit left for
      any writer. */
  lemma LostStoredIsReachable<T>(v: T) returns (run: seq<State<T>>, steps: seq<Step<T>>)
    ensures IsRun(run, steps, 0)
    ensures run[|steps|] == Told(0, Thread(Idle, Active, On(WriteSide)), Thread(RWait, Active, Fresh), [], [v], [v], 2)
                            .(writeTally := Tally(1, 0))
  {
    var stale: Thread<T> := Thread(Idle, Active, On(WriteSide));
    var r: Thread<T> := Thread(RWait, Active, Fresh);
    run, steps := CreditStoredIsReachable(v);
    run, steps := Play(run, steps, 0, Yield(0), Told(1, stale.(place := Yielded(WriteSide)), r, [], [v], [v], 2));
    run, steps := Play(run, steps, 0, Park(0), Told(0, stale, r, [], [v], [v], 2).(writeTally := Tally(1, 0)));
  }

  /** The stale task yields first and parks, though it waits for nothing. */
  lemma StaleParkedIsReachable<T>(v: T) returns (run: seq<State<T>>, steps: seq<Step<T>>)
    ensures IsRun(run, steps, 0)
    ensures run[|steps|] == Told(0, Thread(Idle, Parked(WriteSide), On(WriteSide)), Thread(Idle, Active, Fresh), [], [v], [v], 1)
                            .(write := Block(0, SIZE_MAX, [0]))
  {
    var stale: Thread<T> := Thread(Idle, Parked(WriteSide), On(WriteSide));
    var r: Thread<T> := Thread(Idle, Active, Fresh);
    run, steps := StaleIdleIsReachable(v);
    run, steps := Play(run, steps, 0, Yield(0), Told(0, stale.(place := Yielded(WriteSide)), r, [], [v], [v], 1));
    run, steps := Play(run, steps, 0, Park(0), Told(0, stale, r, [], [v], [v], 1).(write := Block(0, SIZE_MAX, [0])));
  }

  /** A credit is lost in the hand-over: reader 1 comes again and wakes it. */
  lemma LostHandedIsReachable<T>(v: T) returns (run: seq<State<T>>, steps: seq<Step<T>>)
    ensures IsRun(run, steps, 0)
    ensures run[|steps|] == Told(0, Thread(Idle, Active, Fresh), Thread(RWait, Active, Fresh), [], [v], [v], 2)
                            .(writeTally := Tally(1, 0))
  {
    var stale: Thread<T> := Thread(Idle, Parked(WriteSide), On(WriteSide));
    var r: Thread<T> := Thread(RWait, Active, Fresh);
    run, steps := StaleParkedIsReachable(v);
    var begun := Told(0, stale, r.(pc := RBegin(Blocking)), [], [v], [v], 1).(write := Block(0, SIZE_MAX, [0]));
    run, steps := Play(run, steps, 0, BeginPop(1, Blocking), begun);
    run, steps := Play(run, steps, 0, WakeWriter(1),
                       Told(0, Thread(Idle, Active, Fresh), r, [], [v], [v], 2).(writeTally := Tally(1, 0)));
  }
}
