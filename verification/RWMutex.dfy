/** The coroutine reader/writer lock: a block object used as a mutex, and a counter of readers that
    spin. One step per atomic operation or lock section, any number of tasks, any interleaving. */
module RWMutexes {
  import opened Commons
  import opened BlockObjects
  import opened Counting

  datatype Pc =
    | Out
    | RInc(try: bool)     // r_lock or r_try_lock, about to count itself
    | RCheck(try: bool)   // counted, about to read is_lock
    | RBack(try: bool)    // saw the mutex locked, about to uncount itself
    | RYield              // r_lock, about to yield and start again
    | RHeld               // past r_lock or r_try_lock
    | WWait               // w_lock, about to lock the mutex
    | WSpin               // w_lock, owns the mutex, about to read the counter
    | WYield              // w_lock, saw readers, about to yield and look again
    | WTryCheck           // w_try_lock, owns the mutex, about to read the counter
    | WTryBack            // w_try_lock, saw readers, about to give the mutex back
    | WHeld               // past w_lock or w_try_lock

  datatype Place = Active | Yielded | Parked

  /** `stale`: `AddWaitTask` refused the task, whose next plain yield goes back to the mutex. */
  datatype Thread = Thread(pc: Pc, place: Place, stale: bool)

  /** `leaked` counts the times the mutex was given to a task that had not asked for it;
      `doubleUnlock` is the error thrown when an unlock is refused. */
  datatype State = State(mtx: Block, readers: int, tasks: map<TaskId, Thread>, leaked: nat, doubleUnlock: bool)

  datatype Step =
    | Spawn(t: TaskId)
    | BeginRead(t: TaskId, try: bool)
    | Inc(t: TaskId)
    | Check(t: TaskId)
    | Dec(t: TaskId)
    | ReadUnlock(t: TaskId)
    | BeginWrite(t: TaskId)
    | Lock(t: TaskId)
    | TryLock(t: TaskId)
    | Park(t: TaskId)
    | Look(t: TaskId)
    | TryBack(t: TaskId)
    | WriteUnlock(t: TaskId)
    | Yield(t: TaskId)
    | Forget(t: TaskId)

  function Init(): State {
    State(Block(1, 1, []), 0, map[], 0, false)
  }

  predicate Enabled(s: State, step: Step) {
    if step.Spawn? then step.t !in s.tasks
    else if step.Park? then step.t in s.tasks && s.tasks[step.t].place.Yielded?
    else
      && step.t in s.tasks && s.tasks[step.t].place.Active?
      && var pc := s.tasks[step.t].pc;
         match step
         case BeginRead(_, _) => pc.Out?
         case Inc(_) => pc.RInc?
         case Check(_) => pc.RCheck?
         case Dec(_) => pc.RBack?
         case ReadUnlock(_) => pc.RHeld?
         case BeginWrite(_) => pc.Out?
         case Lock(_) => pc.WWait?
         case TryLock(_) => pc.Out?
         case Look(_) => pc.WSpin? || pc.WTryCheck?
         case TryBack(_) => pc.WTryBack?
         case WriteUnlock(_) => pc.WHeld?
         case Yield(_) => pc.Out? || pc.RYield? || pc.WYield? || pc.RHeld? || pc.WHeld?
         case _ => true
  }

  function To(s: State, t: TaskId, pc: Pc): State
    requires t in s.tasks
  {
    s.(tasks := s.tasks[t := s.tasks[t].(pc := pc)])
  }

  /** `is_lock`: no stored signal. */
  predicate IsLock(s: State) { s.mtx.wakeup == 0 }

  /** The mutex signal reaches a task; one that is not in `lock` does not know it owns it. */
  function Receive(s: State, t: TaskId, stale: bool): State
    requires t in s.tasks
  {
    var pc := s.tasks[t].pc;
    if pc.WWait? then s.(tasks := s.tasks[t := Thread(WSpin, Active, stale)])
    else s.(tasks := s.tasks[t := Thread(pc, Active, stale)], leaked := s.leaked + 1)
  }

  /** `unlock` by task `t`, which then leaves. */
  function Unlock(s: State, t: TaskId): State
    requires t in s.tasks
  {
    var s1 := To(s, t, Out);
    var (signal, b) := Wakeup(s.mtx);
    match signal
    case Stored => s1.(mtx := b)
    case Refused => s1.(doubleUnlock := true)
    case Handed(u) => if u in s.tasks then Receive(s1.(mtx := b), u, false) else s1.(mtx := b)
  }

  function AfterYield(pc: Pc): Pc {
    match pc
    case RYield => RInc(false)
    case WYield => WSpin
    case _ => pc
  }

  function Exec(s: State, step: Step): State
    requires Enabled(s, step)
  {
    if step.Spawn? then s.(tasks := s.tasks[step.t := Thread(Out, Active, false)])
    else
      var t := step.t;
      var th := s.tasks[t];
      match step
      case BeginRead(_, try) => To(s, t, RInc(try))
      case Inc(_) => To(s, t, RCheck(th.pc.try)).(readers := s.readers + 1)
      case Check(_) => To(s, t, if IsLock(s) then RBack(th.pc.try) else RHeld)
      case Dec(_) => To(s, t, if th.pc.try then Out else RYield).(readers := s.readers - 1)
      case ReadUnlock(_) => To(s, t, Out).(readers := s.readers - 1)
      case BeginWrite(_) => To(s, t, WWait)
      case Lock(_) =>
        var (taken, b) := TakeSignal(s.mtx);
        if taken then To(s, t, WSpin).(mtx := b) else s.(tasks := s.tasks[t := th.(place := Yielded)])
      case TryLock(_) =>
        var (taken, b) := TakeSignal(s.mtx);
        if taken then To(s, t, WTryCheck).(mtx := b) else s
      case Park(_) =>
        var (parked, b) := AddWaitTask(s.mtx, t);
        if parked then s.(mtx := b, tasks := s.tasks[t := th.(place := Parked)])
        else Receive(s.(mtx := b), t, true)
      case Look(_) =>
        To(s, t, if s.readers == 0 then WHeld else if th.pc.WSpin? then WYield else WTryBack)
      case TryBack(_) => Unlock(s, t)
      case WriteUnlock(_) => Unlock(s, t)
      case Yield(_) =>
        s.(tasks := s.tasks[t := Thread(AfterYield(th.pc), if th.stale then Yielded else Active, th.stale)])
      case Forget(_) => s.(tasks := s.tasks[t := th.(stale := false)])
      case _ => s
  }

  // ---- the invariant ----

  predicate Owns(th: Thread) {
    th.pc.WSpin? || th.pc.WYield? || th.pc.WTryCheck? || th.pc.WTryBack? || th.pc.WHeld?
  }
  predicate Counted(th: Thread) { th.pc.RCheck? || th.pc.RBack? || th.pc.RHeld? }

  /** Off the processor a task is in `lock`, or it got there by a stale yield. */
  predicate WellPlaced(th: Thread) {
    || th.place.Active? || th.pc.WWait? || th.pc.Out? || th.pc == RInc(false) || th.pc.WSpin?
    || th.pc.RHeld? || th.pc.WHeld?
  }

  ghost predicate Placed(mtx: Block, tasks: map<TaskId, Thread>) {
    && Settled(mtx) && mtx.limit == 1
    && (forall t :: t in mtx.queue <==> t in tasks && tasks[t].place.Parked?)
    && (forall t :: t in tasks ==> WellPlaced(tasks[t]))
  }

  /** A writer inside and a reader inside never meet. */
  ghost predicate Excluded(tasks: map<TaskId, Thread>) {
    forall w, r :: w in tasks && r in tasks && tasks[w].pc.WHeld? ==> !tasks[r].pc.RHeld?
  }

  ghost predicate Inv(s: State) {
    && Placed(s.mtx, s.tasks)
    && Excluded(s.tasks)
    && s.mtx.wakeup + Count(s.tasks, Owns) + s.leaked == 1
    && s.readers == Count(s.tasks, Counted)
    && !s.doubleUnlock
  }

  lemma InitInv()
    ensures Inv(Init())
  {
  }

  // ---- preservation ----

  lemma MovePlaced(mtx: Block, tasks: map<TaskId, Thread>, t: TaskId, th: Thread, wakeup: nat)
    requires Placed(mtx, tasks)
    requires t in tasks ==> !tasks[t].place.Parked?
    requires !th.place.Parked? && WellPlaced(th)
    requires wakeup <= mtx.wakeup || mtx.queue == []
    ensures Placed(mtx.(wakeup := wakeup), tasks[t := th])
  {
  }

  lemma EnqueuePlaced(mtx: Block, tasks: map<TaskId, Thread>, t: TaskId, th: Thread)
    requires Placed(mtx, tasks) && mtx.wakeup == 0
    requires t in tasks && !tasks[t].place.Parked?
    requires th.place.Parked? && WellPlaced(th)
    ensures Placed(mtx.(queue := mtx.queue + [t]), tasks[t := th])
  {
  }

  lemma DequeuePlaced(mtx: Block, tasks: map<TaskId, Thread>, th: Thread)
    requires Placed(mtx, tasks) && mtx.queue != []
    requires th.place.Active?
    ensures mtx.queue[0] in tasks && tasks[mtx.queue[0]].place.Parked?
    ensures Placed(mtx.(queue := mtx.queue[1..]), tasks[mtx.queue[0] := th])
  {
    assert mtx.queue[0] in mtx.queue;
    assert mtx.queue == [mtx.queue[0]] + mtx.queue[1..];
  }

  lemma CountsUpdate(tasks: map<TaskId, Thread>, t: TaskId, th: Thread)
    ensures Count(tasks[t := th], Owns) == Count(tasks, Owns) - One(t in tasks && Owns(tasks[t])) + One(Owns(th))
    ensures Count(tasks[t := th], Counted)
         == Count(tasks, Counted) - One(t in tasks && Counted(tasks[t])) + One(Counted(th))
  {
    CountUpdate(tasks, t, th, Owns);
    CountUpdate(tasks, t, th, Counted);
  }

  /** The task is inside only if it was inside before, in the same way. */
  predicate NoEntry(tasks: map<TaskId, Thread>, t: TaskId, th: Thread) {
    th.pc.WHeld? || th.pc.RHeld? ==> t in tasks && tasks[t].pc == th.pc
  }

  /** Nobody enters, so exclusion is kept. */
  lemma NoEntryExcluded(tasks: map<TaskId, Thread>, t: TaskId, th: Thread)
    requires Excluded(tasks) && NoEntry(tasks, t, th)
    ensures Excluded(tasks[t := th])
  {
  }

  /** A writer enters when the counter is zero, so no reader is inside. */
  lemma WriterEntryExcluded(tasks: map<TaskId, Thread>, t: TaskId, th: Thread)
    requires Excluded(tasks) && Count(tasks, Counted) == 0 && !th.pc.RHeld?
    ensures Excluded(tasks[t := th])
  {
    assert Having(tasks, Counted) == {};
    forall r | r in tasks ensures !tasks[r].pc.RHeld? {
      assert r !in Having(tasks, Counted);
    }
  }

  /** A reader enters when the mutex is free, so no writer owns it. */
  lemma ReaderEntryExcluded(tasks: map<TaskId, Thread>, t: TaskId, th: Thread)
    requires Excluded(tasks) && Count(tasks, Owns) == 0 && !th.pc.WHeld?
    ensures Excluded(tasks[t := th])
  {
    assert Having(tasks, Owns) == {};
    forall w | w in tasks ensures !tasks[w].pc.WHeld? {
      assert w !in Having(tasks, Owns);
    }
  }

  /** An active task moves, taking `taken` signals from the mutex; nobody enters. */
  lemma MoveKeepsInv(s: State, t: TaskId, th: Thread, taken: nat, readers: int)
    requires Inv(s) && taken <= s.mtx.wakeup
    requires t in s.tasks ==> !s.tasks[t].place.Parked?
    requires !th.place.Parked? && WellPlaced(th) && NoEntry(s.tasks, t, th)
    requires One(Owns(th)) == One(t in s.tasks && Owns(s.tasks[t])) + taken
    requires readers == s.readers - One(t in s.tasks && Counted(s.tasks[t])) + One(Counted(th))
    ensures Inv(s.(mtx := s.mtx.(wakeup := s.mtx.wakeup - taken), readers := readers, tasks := s.tasks[t := th]))
  {
    MovePlaced(s.mtx, s.tasks, t, th, s.mtx.wakeup - taken);
    NoEntryExcluded(s.tasks, t, th);
    CountsUpdate(s.tasks, t, th);
  }

  lemma CheckKeepsInv(s: State, t: TaskId)
    requires Inv(s) && Enabled(s, Check(t))
    ensures Inv(Exec(s, Check(t)))
  {
    var th := Exec(s, Check(t)).tasks[t];
    MovePlaced(s.mtx, s.tasks, t, th, s.mtx.wakeup);
    CountsUpdate(s.tasks, t, th);
    if IsLock(s) {
      NoEntryExcluded(s.tasks, t, th);
    } else {
      ReaderEntryExcluded(s.tasks, t, th);
    }
  }

  lemma LookKeepsInv(s: State, t: TaskId)
    requires Inv(s) && Enabled(s, Look(t))
    ensures Inv(Exec(s, Look(t)))
  {
    var th := Exec(s, Look(t)).tasks[t];
    MovePlaced(s.mtx, s.tasks, t, th, s.mtx.wakeup);
    CountsUpdate(s.tasks, t, th);
    if s.readers == 0 {
      WriterEntryExcluded(s.tasks, t, th);
    } else {
      NoEntryExcluded(s.tasks, t, th);
    }
  }

  lemma ParkKeepsInv(s: State, t: TaskId)
    requires Inv(s) && Enabled(s, Park(t))
    ensures Inv(Exec(s, Park(t)))
  {
    var th := s.tasks[t];
    var th' := Exec(s, Park(t)).tasks[t];
    CountsUpdate(s.tasks, t, th');
    NoEntryExcluded(s.tasks, t, th');
    if s.mtx.wakeup > 0 {
      MovePlaced(s.mtx, s.tasks, t, th', s.mtx.wakeup - 1);
    } else {
      EnqueuePlaced(s.mtx, s.tasks, t, th');
    }
  }

  /** An owner's unlock is never refused, and the mutex goes to the head of the queue if there is one. */
  lemma UnlockKeepsInv(s: State, t: TaskId)
    requires Inv(s) && t in s.tasks && s.tasks[t].place.Active? && Owns(s.tasks[t])
    ensures Inv(Unlock(s, t))
  {
    CountMember(s.tasks, t, Owns);
    var out := s.tasks[t].(pc := Out);
    var tasks := s.tasks[t := out];
    CountsUpdate(s.tasks, t, out);
    NoEntryExcluded(s.tasks, t, out);
    MovePlaced(s.mtx, s.tasks, t, out, s.mtx.wakeup);
    if s.mtx.queue != [] {
      var u := s.mtx.queue[0];
      assert u in s.mtx.queue;
      var th := Thread(if tasks[u].pc.WWait? then WSpin else tasks[u].pc, Active, false);
      HandOver(s, t, u, tasks, th);
    } else {
      MovePlaced(s.mtx, s.tasks, t, out, 1);
    }
  }

  lemma HandOver(s: State, t: TaskId, u: TaskId, tasks: map<TaskId, Thread>, th: Thread)
    requires Placed(s.mtx, tasks) && Excluded(tasks) && s.mtx.queue != [] && u == s.mtx.queue[0] && u in tasks
    requires th == Thread(if tasks[u].pc.WWait? then WSpin else tasks[u].pc, Active, false)
    requires s.mtx.wakeup == 0 && Count(tasks, Owns) + s.leaked == 0
    requires s.readers == Count(tasks, Counted) && !s.doubleUnlock
    ensures Inv(Receive(s.(mtx := Wakeup(s.mtx).1, tasks := tasks), u, false))
  {
    DequeuePlaced(s.mtx, tasks, th);
    NoEntryExcluded(tasks, u, th);
    CountsUpdate(tasks, u, th);
    assert Owns(tasks[u]) ==> Count(tasks, Owns) >= 1 by {
      if Owns(tasks[u]) { CountMember(tasks, u, Owns); }
    }
  }

  lemma ReaderStepKeepsInv(s: State, step: Step)
    requires Inv(s) && Enabled(s, step)
    requires step.BeginRead? || step.Inc? || step.Check? || step.Dec? || step.ReadUnlock?
    ensures Inv(Exec(s, step))
  {
    var t := step.t;
    var th := s.tasks[t];
    match step
    case BeginRead(_, try) => MoveKeepsInv(s, t, th.(pc := RInc(try)), 0, s.readers);
    case Inc(_) => MoveKeepsInv(s, t, th.(pc := RCheck(th.pc.try)), 0, s.readers + 1);
    case Check(_) => CheckKeepsInv(s, t);
    case Dec(_) => MoveKeepsInv(s, t, th.(pc := if th.pc.try then Out else RYield), 0, s.readers - 1);
    case ReadUnlock(_) => MoveKeepsInv(s, t, th.(pc := Out), 0, s.readers - 1);
  }

  lemma LockKeepsInv(s: State, step: Step)
    requires Inv(s) && Enabled(s, step) && (step.Lock? || step.TryLock?)
    ensures Inv(Exec(s, step))
  {
    var t := step.t;
    var th := s.tasks[t];
    if s.mtx.wakeup > 0 {
      MoveKeepsInv(s, t, th.(pc := if step.Lock? then WSpin else WTryCheck), 1, s.readers);
    } else if step.Lock? {
      MoveKeepsInv(s, t, th.(place := Yielded), 0, s.readers);
    }
  }

  lemma StepKeepsInv(s: State, step: Step)
    requires Inv(s) && Enabled(s, step)
    ensures Inv(Exec(s, step))
  {
    var t := step.t;
    match step
    case Spawn(_) => MoveKeepsInv(s, t, Thread(Out, Active, false), 0, s.readers);
    case BeginWrite(_) => MoveKeepsInv(s, t, s.tasks[t].(pc := WWait), 0, s.readers);
    case Lock(_) => LockKeepsInv(s, step);
    case TryLock(_) => LockKeepsInv(s, step);
    case Park(_) => ParkKeepsInv(s, t);
    case Look(_) => LookKeepsInv(s, t);
    case TryBack(_) => UnlockKeepsInv(s, t);
    case WriteUnlock(_) => UnlockKeepsInv(s, t);
    case Yield(_) => MoveKeepsInv(s, t, Exec(s, step).tasks[t], 0, s.readers);
    case Forget(_) => ForgetKeepsInv(s, t);
    case _ => ReaderStepKeepsInv(s, step);
  }

  lemma ForgetKeepsInv(s: State, t: TaskId)
    requires Inv(s) && Enabled(s, Forget(t))
    ensures Inv(Exec(s, Forget(t)))
  {
    var th := s.tasks[t].(stale := false);
    MovePlaced(s.mtx, s.tasks, t, th, s.mtx.wakeup);
    CountsUpdate(s.tasks, t, th);
  }

  // ---- every run ----

  ghost predicate IsRun(run: seq<State>, steps: seq<Step>) {
    && |run| == |steps| + 1 && run[0] == Init()
    && forall i :: 0 <= i < |steps| ==> Enabled(run[i], steps[i]) && run[i + 1] == Exec(run[i], steps[i])
  }

  lemma {:induction false} RunKeepsInv(run: seq<State>, steps: seq<Step>, i: nat)
    requires IsRun(run, steps) && i < |run|
    ensures Inv(run[i])
  {
    if i > 0 {
      RunKeepsInv(run, steps, i - 1);
      StepKeepsInv(run[i - 1], steps[i - 1]);
    } else {
      InitInv();
    }
  }

  /** The reader counter is never negative, being the number of readers counted, and no unlock by an
      owner is refused. */
  lemma CounterIsSound(run: seq<State>, steps: seq<Step>, i: nat)
    requires IsRun(run, steps) && i < |run|
    ensures run[i].readers == Count(run[i].tasks, Counted) >= 0 && !run[i].doubleUnlock
  {
    RunKeepsInv(run, steps, i);
  }

  /** A writer inside is alone: no other writer inside, no reader inside. */
  lemma Exclusion(run: seq<State>, steps: seq<Step>, i: nat, w: TaskId, u: TaskId)
    requires IsRun(run, steps) && i < |run|
    requires w in run[i].tasks && u in run[i].tasks && w != u && run[i].tasks[w].pc.WHeld?
    ensures !run[i].tasks[u].pc.WHeld? && !run[i].tasks[u].pc.RHeld?
  {
    RunKeepsInv(run, steps, i);
    if run[i].tasks[u].pc.WHeld? {
      CountTwo(run[i].tasks, w, u, Owns);
    }
  }

  /** The mutex alone: at most one task owns it, and if one does it is locked. */
  lemma AtMostOneOwner(run: seq<State>, steps: seq<Step>, i: nat, w: TaskId, u: TaskId)
    requires IsRun(run, steps) && i < |run|
    requires w in run[i].tasks && u in run[i].tasks && Owns(run[i].tasks[w]) && Owns(run[i].tasks[u])
    ensures w == u && IsLock(run[i])
  {
    RunKeepsInv(run, steps, i);
    CountMember(run[i].tasks, w, Owns);
    if w != u {
      CountTwo(run[i].tasks, w, u, Owns);
    }
  }

  // ---- tasks inside that are parked ----

  /** A task that owns the mutex, or is inside as a reader, and is parked in the mutex's own queue. */
  predicate Stuck(s: State, t: TaskId) {
    t in s.tasks && s.tasks[t].place.Parked? && (Owns(s.tasks[t]) || s.tasks[t].pc.RHeld?)
  }

  /** The yield of a spinning writer parks it on the mutex it owns if and only if it is stale,
      that is, if it got the mutex by a refused `AddWaitTask`. */
  lemma SpinYield(s: State, t: TaskId)
    requires Inv(s) && t in s.tasks && s.tasks[t].place.Active? && s.tasks[t].pc.WYield?
    ensures Enabled(s, Yield(t))
    ensures var s1 := Exec(s, Yield(t));
            if s.tasks[t].stale then Enabled(s1, Park(t)) && Stuck(Exec(s1, Park(t)), t)
            else s1.tasks[t] == Thread(WSpin, Active, false)
  {
    CountMember(s.tasks, t, Owns);
  }

  /** The plain yield of a writer inside parks it on the mutex it owns if and only if it is stale. */
  lemma WriterYield(s: State, t: TaskId)
    requires Inv(s) && t in s.tasks && s.tasks[t].place.Active? && s.tasks[t].pc.WHeld?
    ensures Enabled(s, Yield(t))
    ensures var s1 := Exec(s, Yield(t));
            if s.tasks[t].stale then Enabled(s1, Park(t)) && Stuck(Exec(s1, Park(t)), t)
            else s1.tasks[t] == s.tasks[t]
  {
    CountMember(s.tasks, t, Owns);
  }

  /** Whoever is inside now was inside before, in the same way. */
  ghost predicate NobodyNew(s: State, s': State) {
    forall u :: u in s'.tasks && (s'.tasks[u].pc.RHeld? || s'.tasks[u].pc.WHeld?)
                ==> u in s.tasks && s.tasks[u].pc == s'.tasks[u].pc
  }

  lemma StuckIsLocked(s: State, t: TaskId)
    requires Inv(s) && Stuck(s, t)
    ensures IsLock(s)
  {
    assert t in s.mtx.queue;
  }

  /** An owner that is parked stays so for ever: nobody else can unlock. */
  lemma StuckStaysStuck(s: State, step: Step, t: TaskId)
    requires Inv(s) && Enabled(s, step) && Stuck(s, t) && Owns(s.tasks[t])
    ensures Stuck(Exec(s, step), t) && Exec(s, step).tasks[t] == s.tasks[t]
    ensures NobodyNew(s, Exec(s, step))
  {
    CountMember(s.tasks, t, Owns);
    if step.t in s.tasks && Owns(s.tasks[step.t]) && step.t != t {
      CountTwo(s.tasks, t, step.t, Owns);
      assert false;
    }
  }

  /** A reader that is parked while inside is woken only by being given the mutex, which it will not
      unlock. */
  lemma ParkedReaderStays(s: State, step: Step, t: TaskId)
    requires Inv(s) && Enabled(s, step) && Stuck(s, t) && s.tasks[t].pc.RHeld?
    ensures Stuck(Exec(s, step), t) || Lost(Exec(s, step))
  {
  }

  /** Meanwhile it keeps every writer out, and the mutex is locked for new readers. */
  lemma ParkedReaderBlocks(s: State, step: Step, t: TaskId)
    requires Inv(s) && Enabled(s, step) && Stuck(s, t) && s.tasks[t].pc.RHeld?
    ensures NobodyNew(s, Exec(s, step))
  {
    StuckIsLocked(s, t);
    CountMember(s.tasks, t, Counted);
    LockedLetsNobodyIn(s, step);
  }

  /** A reader gets in only past a free mutex, a writer only by finding no reader counted. */
  lemma LockedLetsNobodyIn(s: State, step: Step)
    requires Enabled(s, step) && IsLock(s) && (step.Look? ==> s.readers != 0)
    ensures NobodyNew(s, Exec(s, step))
  {
    if step.WriteUnlock? || step.TryBack? {
      UnlockLetsNobodyIn(s, step.t);
    } else {
      OwnStep(s, step);
      var th := Exec(s, step).tasks[step.t];
      assert th.pc.RHeld? || th.pc.WHeld? ==> step.t in s.tasks && s.tasks[step.t].pc == th.pc;
    }
  }

  lemma UnlockLetsNobodyIn(s: State, t: TaskId)
    requires t in s.tasks
    ensures NobodyNew(s, Unlock(s, t))
  {
  }

  lemma OwnStep(s: State, step: Step)
    requires Enabled(s, step) && !step.WriteUnlock? && !step.TryBack?
    ensures step.t in Exec(s, step).tasks && Exec(s, step).tasks == s.tasks[step.t := Exec(s, step).tasks[step.t]]
  {
  }

  lemma StuckAt(run: seq<State>, steps: seq<Step>, s: State, j: nat, t: TaskId)
    requires IsRun(run, steps) && j < |steps| && Stuck(run[j], t) && Owns(run[j].tasks[t]) && NobodyNew(s, run[j])
    ensures Stuck(run[j + 1], t) && run[j + 1].tasks[t] == run[j].tasks[t] && NobodyNew(s, run[j + 1])
  {
    RunKeepsInv(run, steps, j);
    StuckStaysStuck(run[j], steps[j], t);
    NobodyNewYet(s, run[j], run[j + 1]);
  }

  /** From then on nobody gets in, and the owner stays parked. */
  lemma {:induction false} StuckForever(run: seq<State>, steps: seq<Step>, i: nat, j: nat, t: TaskId)
    requires IsRun(run, steps) && i <= j < |run| && Stuck(run[i], t) && Owns(run[i].tasks[t])
    ensures Stuck(run[j], t) && run[j].tasks[t] == run[i].tasks[t] && NobodyNew(run[i], run[j])
  {
    if i < j {
      StuckForever(run, steps, i, j - 1, t);
      StuckAt(run, steps, run[i], j - 1, t);
    }
  }

  lemma NobodyNewYet(s: State, s1: State, s2: State)
    requires NobodyNew(s, s1) && NobodyNew(s1, s2)
    ensures NobodyNew(s, s2)
  {
  }

  lemma {:induction false} NobodyNewSince(run: seq<State>, i: nat, j: nat)
    requires i <= j < |run| && forall k :: i <= k < j ==> NobodyNew(run[k], run[k + 1])
    ensures NobodyNew(run[i], run[j])
  {
    if i < j {
      NobodyNewSince(run, i, j - 1);
      var k := j - 1;
      NobodyNewYet(run[i], run[k], run[k + 1]);
    }
  }

  // ---- the mutex given to nobody ----

  /** The mutex has gone to a task that is not in `lock` and so will never unlock it. */
  predicate Lost(s: State) { s.leaked > 0 }

  ghost predicate NobodyOwns(s: State) {
    IsLock(s) && forall u :: u in s.tasks ==> !Owns(s.tasks[u])
  }

  lemma LostIsLocked(s: State)
    requires Inv(s) && Lost(s)
    ensures NobodyOwns(s)
  {
    forall u | u in s.tasks ensures !Owns(s.tasks[u]) {
      if Owns(s.tasks[u]) {
        CountMember(s.tasks, u, Owns);
        assert false;
      }
    }
  }

  lemma LostStaysLost(s: State, step: Step)
    requires Inv(s) && Enabled(s, step) && Lost(s)
    ensures Lost(Exec(s, step)) && NobodyNew(s, Exec(s, step))
  {
    LostIsLocked(s);
  }

  lemma LostAt(run: seq<State>, steps: seq<Step>, j: nat)
    requires IsRun(run, steps) && j < |steps| && Lost(run[j])
    ensures Lost(run[j + 1]) && NobodyNew(run[j], run[j + 1])
  {
    RunKeepsInv(run, steps, j);
    LostStaysLost(run[j], steps[j]);
  }

  lemma {:induction false} LostRemains(run: seq<State>, steps: seq<Step>, i: nat, j: nat)
    requires IsRun(run, steps) && i <= j < |run| && Lost(run[i])
    ensures Lost(run[j]) && NobodyNew(run[i], run[j])
  {
    if i < j {
      LostRemains(run, steps, i, j - 1);
      LostAt(run, steps, j - 1);
      NobodyNewYet(run[i], run[j - 1], run[j]);
    }
  }

  /** From then on the mutex is locked, nobody owns it, and everyone inside was inside before. */
  lemma LostForever(run: seq<State>, steps: seq<Step>, i: nat, j: nat)
    requires IsRun(run, steps) && i <= j < |run| && Lost(run[i])
    ensures Lost(run[j]) && NobodyOwns(run[j]) && NobodyNew(run[i], run[j])
  {
    LostRemains(run, steps, i, j);
    RunKeepsInv(run, steps, j);
    LostIsLocked(run[j]);
  }

  // ---- exactly when the lock dies ----

  /** The token goes to a task that is not in `lock`: `AddWaitTask` finds it free for such a task, or
      an unlock hands it to one. */
  predicate Loses(s: State, step: Step)
    requires Enabled(s, step)
  {
    if step.Park? then s.mtx.wakeup > 0 && !s.tasks[step.t].pc.WWait?
    else
      && (step.WriteUnlock? || step.TryBack?)
      && s.mtx.queue != [] && s.mtx.queue[0] in s.tasks && !s.tasks[s.mtx.queue[0]].pc.WWait?
  }

  /** `AddWaitTask` queues the owner itself, spinning or inside, or a reader that is inside. */
  predicate Sticks(s: State, step: Step)
    requires Enabled(s, step)
  {
    step.Park? && s.mtx.wakeup == 0 && (Owns(s.tasks[step.t]) || s.tasks[step.t].pc.RHeld?)
  }

  predicate Kills(s: State, step: Step)
    requires Enabled(s, step)
  {
    Loses(s, step) || Sticks(s, step)
  }

  ghost predicate SomeStuck(s: State) { exists t :: Stuck(s, t) }

  ghost predicate Dead(s: State) { Lost(s) || SomeStuck(s) }

  lemma LossStep(s: State, step: Step)
    requires Inv(s) && Enabled(s, step)
    ensures Exec(s, step).leaked == s.leaked + One(Loses(s, step))
  {
    if (step.WriteUnlock? || step.TryBack?) && s.mtx.queue != [] {
      assert s.mtx.queue[0] in s.mtx.queue;
    } else if step.WriteUnlock? || step.TryBack? {
      CountMember(s.tasks, step.t, Owns);
    }
  }

  /** A task that is stuck after a step was stuck before or got stuck by this very step. */
  lemma StuckByStep(s: State, step: Step, t: TaskId)
    requires Inv(s) && Enabled(s, step) && Stuck(Exec(s, step), t)
    ensures Stuck(s, t) || (step == Park(t) && Sticks(s, step))
  {
  }

  lemma SticksSticks(s: State, step: Step)
    requires Inv(s) && Enabled(s, step) && Sticks(s, step)
    ensures Stuck(Exec(s, step), step.t)
  {
  }

  lemma DeadStaysDead(s: State, step: Step)
    requires Inv(s) && Enabled(s, step) && Dead(s)
    ensures Dead(Exec(s, step)) && NobodyNew(s, Exec(s, step))
  {
    if Lost(s) {
      LostStaysLost(s, step);
    } else {
      var t :| Stuck(s, t);
      if Owns(s.tasks[t]) {
        StuckStaysStuck(s, step, t);
      } else {
        ParkedReaderStays(s, step, t);
        ParkedReaderBlocks(s, step, t);
      }
    }
  }

  lemma DeathStep(s: State, step: Step)
    requires Inv(s) && Enabled(s, step)
    ensures Dead(Exec(s, step)) <==> Dead(s) || Kills(s, step)
  {
    LossStep(s, step);
    if Sticks(s, step) {
      SticksSticks(s, step);
    }
    if Dead(s) {
      DeadStaysDead(s, step);
    }
    if SomeStuck(Exec(s, step)) {
      var t :| Stuck(Exec(s, step), t);
      StuckByStep(s, step, t);
    }
  }

  lemma DeathAt(run: seq<State>, steps: seq<Step>, i: nat)
    requires IsRun(run, steps) && i < |steps|
    ensures Dead(run[i + 1]) <==> Dead(run[i]) || Kills(run[i], steps[i])
    ensures Dead(run[i]) ==> NobodyNew(run[i], run[i + 1])
  {
    RunKeepsInv(run, steps, i);
    DeathStep(run[i], steps[i]);
    if Dead(run[i]) {
      DeadStaysDead(run[i], steps[i]);
    }
  }

  ghost predicate Killed(run: seq<State>, steps: seq<Step>, i: nat)
    requires IsRun(run, steps) && i <= |steps|
  {
    exists j :: 0 <= j < i && Kills(run[j], steps[j])
  }

  /** Over every run the lock is dead if and only if one of those steps was taken. */
  lemma DeathIsExact(run: seq<State>, steps: seq<Step>, i: nat)
    requires IsRun(run, steps) && i < |run|
    ensures Dead(run[i]) <==> Killed(run, steps, i)
  {
    var facts := seq(|run|, k requires 0 <= k < |run| => Dead(run[k]));
    var turns := seq(|steps|, k requires 0 <= k < |steps| && IsRun(run, steps) => Kills(run[k], steps[k]));
    forall k | 0 <= k < |turns| ensures facts[k + 1] <==> facts[k] || turns[k] {
      DeathAt(run, steps, k);
    }
    TurnsTrue(facts, turns, i);
    assert forall j :: 0 <= j < i ==> turns[j] == Kills(run[j], steps[j]);
    if Killed(run, steps, i) {
      var j :| 0 <= j < i && Kills(run[j], steps[j]);
      assert turns[j];
    }
  }

  lemma DeadIsLocked(s: State)
    requires Inv(s) && Dead(s)
    ensures IsLock(s)
  {
    if Lost(s) {
      LostIsLocked(s);
    } else {
      var t :| Stuck(s, t);
      StuckIsLocked(s, t);
    }
  }

  lemma {:induction false} DeadRemains(run: seq<State>, steps: seq<Step>, i: nat, j: nat)
    requires IsRun(run, steps) && i <= j < |run| && Dead(run[i])
    ensures Dead(run[j])
  {
    if i < j {
      DeadRemains(run, steps, i, j - 1);
      DeathAt(run, steps, j - 1);
    }
  }

  /** A dead lock stays locked and never lets anyone in again, neither reader nor writer. */
  lemma DeadForever(run: seq<State>, steps: seq<Step>, i: nat, j: nat)
    requires IsRun(run, steps) && i <= j < |run| && Dead(run[i])
    ensures Dead(run[j]) && IsLock(run[j]) && NobodyNew(run[i], run[j])
  {
    forall k | i <= k <= j ensures Dead(run[k]) {
      DeadRemains(run, steps, i, k);
    }
    forall k | i <= k < j ensures NobodyNew(run[k], run[k + 1]) {
      DeathAt(run, steps, k);
    }
    NobodyNewSince(run, i, j);
    RunKeepsInv(run, steps, j);
    DeadIsLocked(run[j]);
  }

  // ---- runs that end so ----

  const IDLE: Thread := Thread(Out, Active, false)

  /** The states of the runs below: tasks 0, 1 and 2, the mutex taken unless `free`. */
  function Told(free: bool, readers: int, th0: Thread, th1: Thread, th2: Thread): State {
    State(Block(One(free), 1, []), readers, map[0 := th0, 1 := th1, 2 := th2], 0, false)
  }

  lemma Play(run: seq<State>, steps: seq<Step>, step: Step, to: State) returns (run': seq<State>, steps': seq<Step>)
    requires IsRun(run, steps) && Enabled(run[|steps|], step) && Exec(run[|steps|], step) == to
    ensures IsRun(run', steps') && run' == run + [to] && run'[|steps'|] == to
  {
    run', steps' := run + [to], steps + [step];
  }

  /** Writer 1 is inside. */
  lemma WriterInsideIsReachable() returns (run: seq<State>, steps: seq<Step>)
    ensures IsRun(run, steps)
    ensures run[|steps|] == Told(false, 0, IDLE, IDLE.(pc := WHeld), IDLE)
  {
    run, steps := [Init()], [];
    run, steps := Play(run, steps, Spawn(0), Init().(tasks := map[0 := IDLE]));
    run, steps := Play(run, steps, Spawn(1), Init().(tasks := map[0 := IDLE, 1 := IDLE]));
    run, steps := Play(run, steps, Spawn(2), Told(true, 0, IDLE, IDLE, IDLE));
    run, steps := Play(run, steps, TryLock(1), Told(false, 0, IDLE, IDLE.(pc := WTryCheck), IDLE));
    run, steps := Play(run, steps, Look(1), Told(false, 0, IDLE, IDLE.(pc := WHeld), IDLE));
  }

  /** Writer 0 is refused by `AddWaitTask` because writer 1 unlocks first. */
  lemma StaleOwnerIsReachable() returns (run: seq<State>, steps: seq<Step>)
    ensures IsRun(run, steps)
    ensures run[|steps|] == Told(false, 0, Thread(WSpin, Active, true), IDLE, IDLE)
  {
    run, steps := WriterInsideIsReachable();
    run, steps := Play(run, steps, BeginWrite(0), Told(false, 0, IDLE.(pc := WWait), IDLE.(pc := WHeld), IDLE));
    run, steps := Play(run, steps, Lock(0), Told(false, 0, Thread(WWait, Yielded, false), IDLE.(pc := WHeld), IDLE));
    run, steps := Play(run, steps, WriteUnlock(1), Told(true, 0, Thread(WWait, Yielded, false), IDLE, IDLE));
    run, steps := Play(run, steps, Park(0), Told(false, 0, Thread(WSpin, Active, true), IDLE, IDLE));
  }

  /** It sees reader 2 counted for a moment, and yields: it is queued on the mutex that it owns. */
  lemma StuckIsReachable() returns (run: seq<State>, steps: seq<Step>)
    ensures IsRun(run, steps) && Stuck(run[|steps|], 0) && run[|steps|].tasks[0].pc.WSpin?
  {
    var r := IDLE.(pc := RCheck(false));
    run, steps := StaleOwnerIsReachable();
    run, steps := Play(run, steps, BeginRead(2, false), Told(false, 0, Thread(WSpin, Active, true), IDLE, IDLE.(pc := RInc(false))));
    run, steps := Play(run, steps, Inc(2), Told(false, 1, Thread(WSpin, Active, true), IDLE, r));
    run, steps := Play(run, steps, Look(0), Told(false, 1, Thread(WYield, Active, true), IDLE, r));
    run, steps := Play(run, steps, Yield(0), Told(false, 1, Thread(WSpin, Yielded, true), IDLE, r));
    run, steps := Play(run, steps, Park(0),
                       Told(false, 1, Thread(WSpin, Parked, true), IDLE, r).(mtx := Block(0, 1, [0])));
  }

  /** The refused writer is inside. */
  lemma StaleWriterIsReachable() returns (run: seq<State>, steps: seq<Step>)
    ensures IsRun(run, steps)
    ensures run[|steps|] == Told(false, 0, Thread(WHeld, Active, true), IDLE, IDLE)
  {
    run, steps := StaleOwnerIsReachable();
    run, steps := Play(run, steps, Look(0), Told(false, 0, Thread(WHeld, Active, true), IDLE, IDLE));
  }

  /** It yields inside its critical section: it is queued on the mutex that it owns. */
  lemma StuckWriterIsReachable() returns (run: seq<State>, steps: seq<Step>)
    ensures IsRun(run, steps) && Stuck(run[|steps|], 0) && run[|steps|].tasks[0].pc.WHeld?
  {
    run, steps := StaleWriterIsReachable();
    run, steps := Play(run, steps, Yield(0), Told(false, 0, Thread(WHeld, Yielded, true), IDLE, IDLE));
    run, steps := Play(run, steps, Park(0),
                       Told(false, 0, Thread(WHeld, Parked, true), IDLE, IDLE).(mtx := Block(0, 1, [0])));
  }

  /** It unlocks, and is outside with its state still stale. */
  lemma StaleOutIsReachable() returns (run: seq<State>, steps: seq<Step>)
    ensures IsRun(run, steps)
    ensures run[|steps|] == Told(true, 0, Thread(Out, Active, true), IDLE, IDLE)
  {
    run, steps := StaleWriterIsReachable();
    run, steps := Play(run, steps, WriteUnlock(0), Told(true, 0, Thread(Out, Active, true), IDLE, IDLE));
  }

  /** It yields plainly: it takes the only token for nothing. No reader and no spinning is involved. */
  lemma LostIsReachable() returns (run: seq<State>, steps: seq<Step>)
    ensures IsRun(run, steps) && Lost(run[|steps|])
    ensures forall t :: t in run[|steps|].tasks ==> run[|steps|].tasks[t].pc.Out?
  {
    run, steps := StaleOutIsReachable();
    run, steps := Play(run, steps, Yield(0), Told(true, 0, Thread(Out, Yielded, true), IDLE, IDLE));
    run, steps := Play(run, steps, Park(0), Told(false, 0, Thread(Out, Active, true), IDLE, IDLE).(leaked := 1));
  }

  /** It comes back as a reader. */
  lemma StaleReaderIsReachable() returns (run: seq<State>, steps: seq<Step>)
    ensures IsRun(run, steps)
    ensures run[|steps|] == Told(true, 1, Thread(RHeld, Active, true), IDLE, IDLE)
  {
    run, steps := StaleOutIsReachable();
    run, steps := Play(run, steps, BeginRead(0, false), Told(true, 0, Thread(RInc(false), Active, true), IDLE, IDLE));
    run, steps := Play(run, steps, Inc(0), Told(true, 1, Thread(RCheck(false), Active, true), IDLE, IDLE));
    run, steps := Play(run, steps, Check(0), Told(true, 1, Thread(RHeld, Active, true), IDLE, IDLE));
  }

  /** Inside, it yields while writer 1 spins for it to leave: it is queued on that writer's mutex. */
  lemma StuckReaderIsReachable() returns (run: seq<State>, steps: seq<Step>)
    ensures IsRun(run, steps) && Stuck(run[|steps|], 0) && run[|steps|].tasks[0].pc.RHeld?
    ensures 1 in run[|steps|].tasks && run[|steps|].tasks[1].pc.WSpin?
  {
    var w := IDLE.(pc := WSpin);
    run, steps := StaleReaderIsReachable();
    run, steps := Play(run, steps, BeginWrite(1), Told(true, 1, Thread(RHeld, Active, true), IDLE.(pc := WWait), IDLE));
    run, steps := Play(run, steps, Lock(1), Told(false, 1, Thread(RHeld, Active, true), w, IDLE));
    run, steps := Play(run, steps, Yield(0), Told(false, 1, Thread(RHeld, Yielded, true), w, IDLE));
    run, steps := Play(run, steps, Park(0),
                       Told(false, 1, Thread(RHeld, Parked, true), w, IDLE).(mtx := Block(0, 1, [0])));
  }
}
