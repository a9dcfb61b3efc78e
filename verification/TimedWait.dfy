/** The race between `Wakeup` and the timer of a timed wait, over any number of tasks, block objects
    and timers. A step is one lock section or one access to a field that another thread reads. */
module TimedWaits {
  import opened Commons
  import opened BlockObjects

  type WakerId = nat

  /** Where a task is. `Preparing` and `Yielding` lie inside the wait call, before the scheduler's
      `AddWaitTask`; the last two are the hand of a waker and of a timer callback. */
  datatype At =
    | Running
    | Preparing(b: BlockId, timed: bool)
    | Yielding(b: BlockId)
    | Queued(b: BlockId)
    | InWaker(w: WakerId)
    | InTimer(tm: TimerId)

  /** The task's fields, its place, and three histories of the current wait: whether the call has
      yet to return, the signals it consumed and the times it was made runnable. */
  datatype Task = Task(
    block: Option<BlockId>, serial: nat, timed: bool, timer: Option<TimerId>, timedOut: bool,
    sysBlock: bool, refs: int, at: At, waiting: bool, signals: nat, releases: nat)

  /** A timer is active exactly when `Armed`; its function lock is held from `Called` to `Leaving`.
      `Killed` is a timer that `BlockCancel` deactivated and whose reference is not yet dropped. */
  datatype TimerState = Armed | Called | Cancelling | EClear | EFlag | ERun | Leaving | Done | Killed | Gone

  datatype Timer = Timer(task: TaskId, b: BlockId, serial: nat, state: TimerState, drops: nat)

  /** The rest of `Wakeup` after it popped a task and released the lock. */
  datatype Stage = WClear | WTimer | WDec | WReset | WRun

  datatype Waker = Waker(task: TaskId, stage: Stage)

  datatype State = State(
    blocks: map<BlockId, Block>, tasks: map<TaskId, Task>,
    timers: map<TimerId, Timer>, wakers: map<WakerId, Waker>)

  datatype Step =
    | Spawn(t: TaskId)
    | NewBlock(b: BlockId, init: nat, limit: nat)
    | TryWait(b: BlockId)
    | StartWait(t: TaskId, b: BlockId, timed: bool)
    | SetUp(t: TaskId)
    | AddWait(t: TaskId, tm: TimerId)
    | Return(t: TaskId)
    | PlainYield(t: TaskId)
    | Forget(t: TaskId)
    | Wake(b: BlockId, w: WakerId)
    | WakerStep(w: WakerId)
    | Fire(tm: TimerId)
    | TimerStep(tm: TimerId)

  function Init(): State {
    State(map[], map[], map[], map[])
  }

  predicate LockFree(x: Timer) { (x.state.Armed? || x.state.Done? || x.state.Killed? || x.state.Gone?) }

  /** The timer may still find its task queued. */
  predicate Live(x: Timer) { (x.state.Armed? || x.state.Called? || x.state.Cancelling?) }

  /** The timer callback has erased the task and not yet made it runnable. */
  predicate Erasing(x: Timer) { (x.state.EClear? || x.state.EFlag? || x.state.ERun?) }

  predicate Enabled(s: State, step: Step) {
    match step
    case Spawn(t) => t !in s.tasks
    case NewBlock(b, _, _) => b !in s.blocks
    case TryWait(b) => b in s.blocks
    case StartWait(t, b, _) => t in s.tasks && b in s.blocks && s.tasks[t].at == Running && !s.tasks[t].waiting
    case SetUp(t) => t in s.tasks && s.tasks[t].at.Preparing?
    case AddWait(t, tm) => t in s.tasks && s.tasks[t].at.Yielding? && s.tasks[t].at.b in s.blocks && tm !in s.timers
    case Return(t) => t in s.tasks && s.tasks[t].at == Running && s.tasks[t].waiting
    case PlainYield(t) => t in s.tasks && s.tasks[t].at == Running && !s.tasks[t].waiting
    case Forget(t) => t in s.tasks && s.tasks[t].at == Running && !s.tasks[t].waiting
    case Wake(b, w) => b in s.blocks && w !in s.wakers
    case WakerStep(w) => w in s.wakers && s.wakers[w].task in s.tasks && WakerEnabled(s, s.wakers[w])
    case Fire(tm) => tm in s.timers && LockFree(s.timers[tm])
    case TimerStep(tm) => tm in s.timers && !LockFree(s.timers[tm]) && s.timers[tm].task in s.tasks
                          && s.timers[tm].b in s.blocks
  }

  /** `BlockCancel` spins until the timer's function lock is free. */
  predicate WakerEnabled(s: State, y: Waker)
    requires y.task in s.tasks
  {
    var timer := s.tasks[y.task].timer;
    y.stage == WTimer && timer.Some? ==> timer.value in s.timers && LockFree(s.timers[timer.value])
  }

  function Exec(s: State, step: Step): State
    requires Enabled(s, step)
  {
    match step
    case Spawn(t) =>
      s.(tasks := s.tasks[t := Task(None, 0, false, None, false, false, 1, Running, false, 0, 0)])
    case NewBlock(b, init, limit) => s.(blocks := s.blocks[b := Block(init, limit, [])])
    case TryWait(b) => s.(blocks := s.blocks[b := TakeSignal(s.blocks[b]).1])
    case StartWait(t, b, timed) =>
      var (taken, b') := TakeSignal(s.blocks[b]);
      if taken then s.(blocks := s.blocks[b := b'])
      else s.(tasks := s.tasks[t := s.tasks[t].(block := Some(b), sysBlock := true, at := Preparing(b, timed))])
    case SetUp(t) =>
      var k := s.tasks[t];
      s.(tasks := s.tasks[t := k.(serial := k.serial + 1, timed := k.at.timed, timedOut := false,
                                  at := Yielding(k.at.b), waiting := true, signals := 0, releases := 0)])
    case AddWait(t, tm) => ExecAddWait(s, t, tm)
    case Return(t) => s.(tasks := s.tasks[t := s.tasks[t].(waiting := false)])
    case PlainYield(t) =>
      var k := s.tasks[t];
      if k.sysBlock && k.block.Some? then
        s.(tasks := s.tasks[t := k.(at := Yielding(k.block.value), signals := 0, releases := 0)])
      else s
    case Forget(t) => s.(tasks := s.tasks[t := s.tasks[t].(sysBlock := false)])
    case Wake(b, w) => ExecWake(s, b, w)
    case WakerStep(w) => ExecWaker(s, w)
    case Fire(tm) => if s.timers[tm].state.Armed? then SetTimer(s, tm, Called) else s
    case TimerStep(tm) => ExecTimer(s, tm)
  }

  function SetTimer(s: State, tm: TimerId, st: TimerState): State
    requires tm in s.timers
  {
    s.(timers := s.timers[tm := s.timers[tm].(state := st)])
  }

  /** One section under the block object's lock, arming the timer included. */
  function ExecAddWait(s: State, t: TaskId, tm: TimerId): State
    requires t in s.tasks && s.tasks[t].at.Yielding? && s.tasks[t].at.b in s.blocks
  {
    var k := s.tasks[t];
    var b := k.at.b;
    var (parked, b') := AddWaitTask(s.blocks[b], t);
    var s1 := s.(blocks := s.blocks[b := b']);
    if !parked then
      s1.(tasks := s.tasks[t := k.(at := Running, signals := k.signals + 1, releases := k.releases + 1)])
    else if !k.timed then
      s1.(tasks := s.tasks[t := k.(at := Queued(b), refs := k.refs + 1)])
    else
      s1.(tasks := s.tasks[t := k.(at := Queued(b), refs := k.refs + 2, timer := Some(tm))],
          timers := s.timers[tm := Timer(t, b, k.serial, Armed, 0)])
  }

  function ExecWake(s: State, b: BlockId, w: WakerId): State
    requires b in s.blocks
  {
    var (signal, b') := Wakeup(s.blocks[b]);
    var s1 := s.(blocks := s.blocks[b := b']);
    if signal.Handed? && signal.task in s.tasks then
      var k := s.tasks[signal.task];
      s1.(wakers := s.wakers[w := Waker(signal.task, WClear)],
          tasks := s.tasks[signal.task := k.(at := InWaker(w), refs := k.refs - 1, signals := k.signals + 1)])
    else s1
  }

  function ExecWaker(s: State, w: WakerId): State
    requires w in s.wakers && s.wakers[w].task in s.tasks && WakerEnabled(s, s.wakers[w])
  {
    var y := s.wakers[w];
    var k := s.tasks[y.task];
    match y.stage
    case WClear => s.(wakers := s.wakers[w := y.(stage := WTimer)], tasks := s.tasks[y.task := k.(block := None)])
    case WTimer =>
      if k.timer.None? then s.(wakers := s.wakers[w := y.(stage := WRun)])
      else if s.timers[k.timer.value].state.Armed? then
        SetTimer(s, k.timer.value, Killed).(wakers := s.wakers[w := y.(stage := WDec)])
      else s.(wakers := s.wakers[w := y.(stage := WReset)])
    case WDec =>
      var s1 := s.(wakers := s.wakers[w := y.(stage := WReset)], tasks := s.tasks[y.task := k.(refs := k.refs - 1)]);
      if k.timer.Some? && k.timer.value in s.timers then
        var x := s.timers[k.timer.value];
        s1.(timers := s.timers[k.timer.value := x.(state := Gone, drops := x.drops + 1)])
      else s1
    case WReset => s.(wakers := s.wakers[w := y.(stage := WRun)], tasks := s.tasks[y.task := k.(timer := None)])
    case WRun =>
      s.(wakers := s.wakers - {w},
         tasks := s.tasks[y.task := k.(at := Running, sysBlock := false, releases := k.releases + 1)])
  }

  function ExecTimer(s: State, tm: TimerId): State
    requires tm in s.timers && s.timers[tm].task in s.tasks && s.timers[tm].b in s.blocks
  {
    var x := s.timers[tm];
    var k := s.tasks[x.task];
    match x.state
    case Called => SetTimer(s, tm, if k.serial == x.serial then Cancelling else Leaving)
    case Cancelling =>
      var b := s.blocks[x.b];
      if k.block == Some(x.b) && k.serial == x.serial && CancelWait(b, x.task).0 then
        SetTimer(s, tm, EClear).(blocks := s.blocks[x.b := CancelWait(b, x.task).1],
                                 tasks := s.tasks[x.task := k.(at := InTimer(tm), refs := k.refs - 1)])
      else SetTimer(s, tm, Leaving)
    case EClear => SetTimer(s, tm, EFlag).(tasks := s.tasks[x.task := k.(block := None)])
    case EFlag => SetTimer(s, tm, ERun).(tasks := s.tasks[x.task := k.(timedOut := true)])
    case ERun =>
      SetTimer(s, tm, Leaving).(tasks :=
        s.tasks[x.task := k.(at := Running, sysBlock := false, releases := k.releases + 1)])
    case Leaving =>
      s.(timers := s.timers[tm := x.(state := Done, drops := x.drops + 1)],
         tasks := s.tasks[x.task := k.(refs := k.refs - 1)])
    case _ => s
  }

  // ---- the invariant ----

  predicate NotLive(timer: Option<TimerId>, timers: map<TimerId, Timer>) {
    timer.Some? && timer.value in timers ==> !Live(timers[timer.value])
  }

  /** What the fields of task `t` say, by place. */
  predicate PlaceOk(t: TaskId, k: Task, timers: map<TimerId, Timer>, wakers: map<WakerId, Waker>) {
    && (k.timer.Some? ==> k.timer.value in timers && timers[k.timer.value].task == t)
    && (!k.at.Running? ==> k.releases == 0 || k.at.Preparing?)
    && (k.waiting && !k.at.Running? && !k.at.InTimer? ==> !k.timedOut)
    && match k.at
       case Running =>
         && (k.sysBlock ==> k.block.Some?)
         && NotLive(k.timer, timers)
         && (k.waiting ==> k.releases == 1 && k.signals == One(!k.timedOut))
       case Preparing(b, _) => k.block == Some(b) && NotLive(k.timer, timers) && !k.waiting
       case Yielding(b) => k.block == Some(b) && NotLive(k.timer, timers) && k.signals == 0
       case Queued(b) =>
         && k.block == Some(b) && k.signals == 0
         && (if k.timed then k.timer.Some? && Live(timers[k.timer.value])
                             && timers[k.timer.value].serial == k.serial && timers[k.timer.value].b == b
             else NotLive(k.timer, timers))
       case InWaker(w) =>
         && w in wakers && wakers[w].task == t && k.signals == 1
         && (wakers[w].stage.WDec? ==> k.timer.Some? && timers[k.timer.value].state.Killed?)
         && (wakers[w].stage.WReset? || wakers[w].stage.WRun? ==> NotLive(k.timer, timers))
       case InTimer(tm) =>
         && k.timer == Some(tm) && Erasing(timers[tm]) && k.signals == 0
         && (timers[tm].state.ERun? ==> k.timedOut)
  }

  /** The task's current timer: while it is live it belongs to the current wait. */
  predicate TimerOk(tm: TimerId, x: Timer, k: Task, wakers: map<WakerId, Waker>) {
    && (Live(x) ==> k.serial == x.serial && (k.at == Queued(x.b) || k.at.InWaker?))
    && (Erasing(x) ==> k.at == InTimer(tm))
    && (x.state.Killed? ==> k.at.InWaker? && k.at.w in wakers && wakers[k.at.w].stage.WDec?)
    && x.drops == One(x.state.Done? || x.state.Gone?)
  }

  /** A timer of an earlier wait can only leave. */
  predicate Quiet(x: Timer) {
    (x.state.Leaving? || x.state.Done? || x.state.Gone?) && x.drops == One(x.state.Done? || x.state.Gone?)
  }

  /** The timers that hold a reference to task `t`. */
  ghost function Holders(timers: map<TimerId, Timer>, t: TaskId): set<TimerId> {
    set tm | tm in timers && timers[tm].task == t && timers[tm].drops == 0
  }

  ghost predicate OthersQuiet(t: TaskId, timer: Option<TimerId>, timers: map<TimerId, Timer>) {
    forall tm :: tm in timers && timers[tm].task == t && timer != Some(tm) ==> Quiet(timers[tm])
  }

  ghost predicate InOneHand(t: TaskId, at: At, wakers: map<WakerId, Waker>) {
    forall w :: w in wakers && wakers[w].task == t ==> at == InWaker(w)
  }

  ghost predicate TaskOk(t: TaskId, k: Task, timers: map<TimerId, Timer>, wakers: map<WakerId, Waker>) {
    && PlaceOk(t, k, timers, wakers)
    && (k.timer.Some? ==> TimerOk(k.timer.value, timers[k.timer.value], k, wakers))
    && OthersQuiet(t, k.timer, timers)
    && InOneHand(t, k.at, wakers)
    && k.refs == 1 + One(k.at.Queued?) + |Holders(timers, t)|
  }

  ghost predicate TasksOk(s: State) {
    forall t :: t in s.tasks ==> TaskOk(t, s.tasks[t], s.timers, s.wakers)
  }

  ghost predicate Owned(s: State) {
    && (forall tm :: tm in s.timers ==> s.timers[tm].task in s.tasks)
    && (forall w :: w in s.wakers ==> s.wakers[w].task in s.tasks)
  }

  /** The wait queues hold exactly the queued tasks. */
  ghost predicate QueuesOk(blocks: map<BlockId, Block>, tasks: map<TaskId, Task>) {
    && (forall b :: b in blocks ==> Settled(blocks[b]))
    && (forall b, t :: b in blocks && t in blocks[b].queue ==> t in tasks && tasks[t].at == Queued(b))
    && (forall t :: t in tasks && tasks[t].at.Queued? ==> tasks[t].at.b in blocks && t in blocks[tasks[t].at.b].queue)
  }

  ghost predicate Inv(s: State) {
    TasksOk(s) && Owned(s) && QueuesOk(s.blocks, s.tasks)
  }

  lemma InitInv()
    ensures Inv(Init())
  {
  }

  // ---- preservation: a step concerns one task ----

  /** Only task `t`, its timers and its wakers change. */
  ghost predicate Only(s: State, s': State, t: TaskId) {
    && t in s'.tasks && s'.tasks == s.tasks[t := s'.tasks[t]]
    && (forall tm :: tm in s.timers && s.timers[tm].task != t ==> tm in s'.timers && s'.timers[tm] == s.timers[tm])
    && (forall tm :: tm in s'.timers ==> s'.timers[tm].task == t || (tm in s.timers && s.timers[tm] == s'.timers[tm]))
    && (forall w :: w in s.wakers && s.wakers[w].task != t ==> w in s'.wakers && s'.wakers[w] == s.wakers[w])
    && (forall w :: w in s'.wakers ==> s'.wakers[w].task == t || (w in s.wakers && s.wakers[w] == s'.wakers[w]))
  }

  lemma OtherTaskOk(s: State, s': State, t: TaskId, u: TaskId)
    requires Inv(s) && Only(s, s', t) && u in s.tasks && u != t
    ensures TaskOk(u, s'.tasks[u], s'.timers, s'.wakers)
  {
    assert TaskOk(u, s.tasks[u], s.timers, s.wakers);
    assert Holders(s'.timers, u) == Holders(s.timers, u);
  }

  lemma Frame(s: State, s': State, t: TaskId)
    requires Inv(s) && Only(s, s', t)
    requires TaskOk(t, s'.tasks[t], s'.timers, s'.wakers)
    requires QueuesOk(s'.blocks, s'.tasks)
    ensures Inv(s')
  {
    forall u | u in s'.tasks ensures TaskOk(u, s'.tasks[u], s'.timers, s'.wakers) {
      if u != t {
        OtherTaskOk(s, s', t, u);
      }
    }
  }

  lemma HoldersUpdate(timers: map<TimerId, Timer>, tm: TimerId, x: Timer, t: TaskId)
    ensures |Holders(timers[tm := x], t)|
         == |Holders(timers, t)|
            - One(tm in timers && timers[tm].task == t && timers[tm].drops == 0) + One(x.task == t && x.drops == 0)
  {
    HoldersWithout(timers, tm, t);
    HoldersWithout(timers[tm := x], tm, t);
    assert Holders(timers[tm := x], t) - {tm} == Holders(timers, t) - {tm};
  }

  lemma HoldersWithout(timers: map<TimerId, Timer>, tm: TimerId, t: TaskId)
    ensures |Holders(timers, t)|
         == |Holders(timers, t) - {tm}| + One(tm in timers && timers[tm].task == t && timers[tm].drops == 0)
  {
    if tm in Holders(timers, t) {
      assert Holders(timers, t) == (Holders(timers, t) - {tm}) + {tm};
    } else {
      assert Holders(timers, t) - {tm} == Holders(timers, t);
    }
  }

  // ---- the queues ----

  lemma QueuesUnmoved(blocks: map<BlockId, Block>, tasks: map<TaskId, Task>, t: TaskId, k: Task)
    requires QueuesOk(blocks, tasks) && !k.at.Queued? && (t in tasks ==> !tasks[t].at.Queued?)
    ensures QueuesOk(blocks, tasks[t := k])
  {
  }

  lemma QueuesTake(blocks: map<BlockId, Block>, tasks: map<TaskId, Task>, b: BlockId)
    requires QueuesOk(blocks, tasks) && b in blocks
    ensures QueuesOk(blocks[b := TakeSignal(blocks[b]).1], tasks)
  {
  }

  lemma QueuesEnqueue(blocks: map<BlockId, Block>, tasks: map<TaskId, Task>, b: BlockId, t: TaskId, k: Task)
    requires QueuesOk(blocks, tasks) && b in blocks && blocks[b].wakeup == 0
    requires t in tasks && !tasks[t].at.Queued? && k.at == Queued(b)
    ensures QueuesOk(blocks[b := blocks[b].(queue := blocks[b].queue + [t])], tasks[t := k])
  {
  }

  lemma QueuesDequeue(blocks: map<BlockId, Block>, tasks: map<TaskId, Task>, b: BlockId, k: Task)
    requires QueuesOk(blocks, tasks) && b in blocks && blocks[b].queue != [] && !k.at.Queued?
    ensures blocks[b].queue[0] in tasks && tasks[blocks[b].queue[0]].at == Queued(b)
    ensures QueuesOk(blocks[b := blocks[b].(queue := blocks[b].queue[1..])], tasks[blocks[b].queue[0] := k])
  {
    var q := blocks[b].queue;
    assert q[0] in q;
    assert q == [q[0]] + q[1..];
  }

  lemma QueuesCancel(blocks: map<BlockId, Block>, tasks: map<TaskId, Task>, b: BlockId, t: TaskId, k: Task)
    requires QueuesOk(blocks, tasks) && b in blocks && t in blocks[b].queue && !k.at.Queued?
    ensures QueuesOk(blocks[b := CancelWait(blocks[b], t).1], tasks[t := k])
  {
    assert tasks[t].at == Queued(b);
    var b' := CancelWait(blocks[b], t).1;
    assert forall u :: u in b'.queue <==> u in blocks[b].queue && u != t;
  }

  // ---- preservation, step by step ----

  lemma SpawnKeepsInv(s: State, t: TaskId)
    requires Inv(s) && Enabled(s, Spawn(t))
    ensures Inv(Exec(s, Spawn(t)))
  {
    var s' := Exec(s, Spawn(t));
    assert Holders(s.timers, t) == {};
    QueuesUnmoved(s.blocks, s.tasks, t, s'.tasks[t]);
    Frame(s, s', t);
  }

  lemma BlockStepKeepsInv(s: State, step: Step)
    requires Inv(s) && Enabled(s, step) && (step.NewBlock? || step.TryWait?)
    ensures Inv(Exec(s, step))
  {
    if step.TryWait? {
      QueuesTake(s.blocks, s.tasks, step.b);
    }
  }

  lemma StartWaitKeepsInv(s: State, t: TaskId, b: BlockId, timed: bool)
    requires Inv(s) && Enabled(s, StartWait(t, b, timed))
    ensures Inv(Exec(s, StartWait(t, b, timed)))
  {
    if s.blocks[b].wakeup > 0 {
      QueuesTake(s.blocks, s.tasks, b);
    } else {
      var s' := Exec(s, StartWait(t, b, timed));
      assert TaskOk(t, s.tasks[t], s.timers, s.wakers);
      QueuesUnmoved(s.blocks, s.tasks, t, s'.tasks[t]);
      Frame(s, s', t);
    }
  }

  lemma LocalStepKeepsInv(s: State, step: Step)
    requires Inv(s) && Enabled(s, step) && (step.SetUp? || step.Return? || step.PlainYield? || step.Forget?)
    ensures Inv(Exec(s, step))
  {
    var t := step.t;
    var s' := Exec(s, step);
    LocalTaskOk(s, step);
    QueuesUnmoved(s.blocks, s.tasks, t, s'.tasks[t]);
    Frame(s, s', t);
  }

  lemma LocalTaskOk(s: State, step: Step)
    requires Inv(s) && Enabled(s, step) && (step.SetUp? || step.Return? || step.PlainYield? || step.Forget?)
    ensures TaskOk(step.t, Exec(s, step).tasks[step.t], s.timers, s.wakers)
    ensures !Exec(s, step).tasks[step.t].at.Queued? && !s.tasks[step.t].at.Queued?
  {
    assert TaskOk(step.t, s.tasks[step.t], s.timers, s.wakers);
  }

  lemma OnlyTimer(s: State, s': State, t: TaskId, tm: TimerId)
    requires t in s'.tasks && s'.tasks == s.tasks[t := s'.tasks[t]] && s'.wakers == s.wakers
    requires tm in s'.timers && s'.timers == s.timers[tm := s'.timers[tm]] && s'.timers[tm].task == t
    requires tm in s.timers ==> s.timers[tm].task == t
    ensures Only(s, s', t)
  {
  }

  lemma OnlyWaker(s: State, s': State, t: TaskId, w: WakerId)
    requires t in s'.tasks && s'.tasks == s.tasks[t := s'.tasks[t]] && s'.timers == s.timers
    requires w in s.wakers ==> s.wakers[w].task == t
    requires (w in s'.wakers && s'.wakers == s.wakers[w := s'.wakers[w]] && s'.wakers[w].task == t) || s'.wakers == s.wakers - {w}
    ensures Only(s, s', t)
  {
  }

  lemma RefusedTaskOk(s: State, t: TaskId, tm: TimerId)
    requires Enabled(s, AddWait(t, tm)) && TaskOk(t, s.tasks[t], s.timers, s.wakers)
    requires s.blocks[s.tasks[t].at.b].wakeup > 0
    ensures var s' := ExecAddWait(s, t, tm); TaskOk(t, s'.tasks[t], s'.timers, s'.wakers)
  {
  }

  lemma ParkedTaskOk(s: State, t: TaskId, tm: TimerId)
    requires Enabled(s, AddWait(t, tm)) && TaskOk(t, s.tasks[t], s.timers, s.wakers)
    requires s.blocks[s.tasks[t].at.b].wakeup == 0
    ensures var s' := ExecAddWait(s, t, tm); TaskOk(t, s'.tasks[t], s'.timers, s'.wakers)
  {
    HoldersUpdate(s.timers, tm, Timer(t, s.tasks[t].at.b, s.tasks[t].serial, Armed, 0), t);
  }

  lemma AddWaitKeepsInv(s: State, t: TaskId, tm: TimerId)
    requires Inv(s) && Enabled(s, AddWait(t, tm))
    ensures Inv(ExecAddWait(s, t, tm))
  {
    var s' := ExecAddWait(s, t, tm);
    var k := s.tasks[t];
    assert TaskOk(t, k, s.timers, s.wakers);
    if s.blocks[k.at.b].wakeup > 0 {
      RefusedTaskOk(s, t, tm);
      QueuesTake(s.blocks, s.tasks, k.at.b);
      QueuesUnmoved(s'.blocks, s.tasks, t, s'.tasks[t]);
    } else {
      ParkedTaskOk(s, t, tm);
      QueuesEnqueue(s.blocks, s.tasks, k.at.b, t, s'.tasks[t]);
      if k.timed { OnlyTimer(s, s', t, tm); }
    }
    Frame(s, s', t);
  }

  lemma PoppedTaskOk(s: State, b: BlockId, w: WakerId, t: TaskId)
    requires Enabled(s, Wake(b, w)) && s.blocks[b].queue != [] && t == s.blocks[b].queue[0]
    requires t in s.tasks && s.tasks[t].at == Queued(b) && TaskOk(t, s.tasks[t], s.timers, s.wakers)
    ensures var s' := ExecWake(s, b, w); TaskOk(t, s'.tasks[t], s'.timers, s'.wakers)
  {
  }

  lemma WakeKeepsInv(s: State, b: BlockId, w: WakerId)
    requires Inv(s) && Enabled(s, Wake(b, w))
    ensures Inv(ExecWake(s, b, w))
  {
    var s' := ExecWake(s, b, w);
    var q := s.blocks[b].queue;
    if q == [] {
      QueuesStore(s.blocks, s.tasks, b);
    } else {
      var t := q[0];
      assert t in q;
      QueuesDequeue(s.blocks, s.tasks, b, s'.tasks[t]);
      assert TaskOk(t, s.tasks[t], s.timers, s.wakers);
      PoppedTaskOk(s, b, w, t);
      OnlyWaker(s, s', t, w);
      Frame(s, s', t);
    }
  }

  lemma QueuesStore(blocks: map<BlockId, Block>, tasks: map<TaskId, Task>, b: BlockId)
    requires QueuesOk(blocks, tasks) && b in blocks && blocks[b].queue == []
    ensures QueuesOk(blocks[b := Wakeup(blocks[b]).1], tasks)
  {
  }

  /** The waker waits for the timer's lock, so when it gets past `BlockCancel` the timer is dead. */
  lemma CancelTimerTaskOk(s: State, w: WakerId, t: TaskId)
    requires Enabled(s, WakerStep(w)) && t == s.wakers[w].task
    requires TaskOk(t, s.tasks[t], s.timers, s.wakers)
    requires s.wakers[w].stage.WTimer?
    ensures var s' := ExecWaker(s, w);
            TaskOk(t, s'.tasks[t], s'.timers, s'.wakers) && !s'.tasks[t].at.Queued? && s'.blocks == s.blocks
  {
    var s' := ExecWaker(s, w);
    var timer := s.tasks[t].timer;
    assert s.tasks[t].at == InWaker(w);
    if timer.Some? {
      HoldersUpdate(s.timers, timer.value, s'.timers[timer.value], t);
      assert !Live(s'.timers[timer.value]);
    }
  }

  lemma DropRefTaskOk(s: State, w: WakerId, t: TaskId)
    requires Enabled(s, WakerStep(w)) && t == s.wakers[w].task
    requires TaskOk(t, s.tasks[t], s.timers, s.wakers)
    requires s.wakers[w].stage.WDec?
    ensures var s' := ExecWaker(s, w);
            TaskOk(t, s'.tasks[t], s'.timers, s'.wakers) && !s'.tasks[t].at.Queued? && s'.blocks == s.blocks
  {
    var s' := ExecWaker(s, w);
    var timer := s.tasks[t].timer;
    assert s.tasks[t].at == InWaker(w);
    HoldersUpdate(s.timers, timer.value, s'.timers[timer.value], t);
  }

  lemma ClearTaskOk(s: State, w: WakerId, t: TaskId)
    requires Enabled(s, WakerStep(w)) && t == s.wakers[w].task
    requires TaskOk(t, s.tasks[t], s.timers, s.wakers)
    requires s.wakers[w].stage.WClear?
    ensures var s' := ExecWaker(s, w);
            TaskOk(t, s'.tasks[t], s'.timers, s'.wakers) && !s'.tasks[t].at.Queued? && s'.blocks == s.blocks
  {
    assert s.tasks[t].at == InWaker(w);
  }

  lemma ResetTaskOk(s: State, w: WakerId, t: TaskId)
    requires Enabled(s, WakerStep(w)) && t == s.wakers[w].task
    requires TaskOk(t, s.tasks[t], s.timers, s.wakers)
    requires s.wakers[w].stage.WReset?
    ensures var s' := ExecWaker(s, w);
            TaskOk(t, s'.tasks[t], s'.timers, s'.wakers) && !s'.tasks[t].at.Queued? && s'.blocks == s.blocks
  {
    assert s.tasks[t].at == InWaker(w);
  }

  lemma RunTaskOk(s: State, w: WakerId, t: TaskId)
    requires Enabled(s, WakerStep(w)) && t == s.wakers[w].task
    requires TaskOk(t, s.tasks[t], s.timers, s.wakers)
    requires s.wakers[w].stage.WRun?
    ensures var s' := ExecWaker(s, w);
            TaskOk(t, s'.tasks[t], s'.timers, s'.wakers) && !s'.tasks[t].at.Queued? && s'.blocks == s.blocks
  {
    assert s.tasks[t].at == InWaker(w);
  }

  lemma WakerTaskOk(s: State, w: WakerId, t: TaskId)
    requires Enabled(s, WakerStep(w)) && t == s.wakers[w].task
    requires TaskOk(t, s.tasks[t], s.timers, s.wakers)
    ensures var s' := ExecWaker(s, w);
            TaskOk(t, s'.tasks[t], s'.timers, s'.wakers) && !s'.tasks[t].at.Queued? && s'.blocks == s.blocks
  {
    if s.wakers[w].stage.WTimer? {
      CancelTimerTaskOk(s, w, t);
    } else if s.wakers[w].stage.WDec? {
      DropRefTaskOk(s, w, t);
    } else if s.wakers[w].stage.WClear? {
      ClearTaskOk(s, w, t);
    } else if s.wakers[w].stage.WReset? {
      ResetTaskOk(s, w, t);
    } else {
      RunTaskOk(s, w, t);
    }
  }

  lemma OnlyBoth(s: State, s': State, t: TaskId, tm: TimerId, w: WakerId)
    requires t in s'.tasks && s'.tasks == s.tasks[t := s'.tasks[t]]
    requires tm in s.timers && s.timers[tm].task == t
    requires tm in s'.timers && s'.timers == s.timers[tm := s'.timers[tm]] && s'.timers[tm].task == t
    requires w in s.wakers && s.wakers[w].task == t
    requires (w in s'.wakers && s'.wakers == s.wakers[w := s'.wakers[w]] && s'.wakers[w].task == t) || s'.wakers == s.wakers - {w}
    ensures Only(s, s', t)
  {
  }

  lemma WakerOnly(s: State, w: WakerId, t: TaskId)
    requires Enabled(s, WakerStep(w)) && t == s.wakers[w].task
    requires TaskOk(t, s.tasks[t], s.timers, s.wakers)
    ensures Only(s, ExecWaker(s, w), t)
  {
    var s' := ExecWaker(s, w);
    assert s.tasks == s.tasks[t := s.tasks[t]];
    if s.tasks[t].timer.Some? {
      var tm := s.tasks[t].timer.value;
      assert s.timers == s.timers[tm := s.timers[tm]];
      OnlyBoth(s, s', t, tm, w);
    } else {
      OnlyWaker(s, s', t, w);
    }
  }

  lemma WakerStepKeepsInv(s: State, w: WakerId)
    requires Inv(s) && Enabled(s, WakerStep(w))
    ensures Inv(ExecWaker(s, w))
  {
    var t := s.wakers[w].task;
    assert TaskOk(t, s.tasks[t], s.timers, s.wakers);
    WakerTaskOk(s, w, t);
    WakerOnly(s, w, t);
    FrameOffQueue(s, ExecWaker(s, w), t);
  }

  lemma FrameOffQueue(s: State, s': State, t: TaskId)
    requires Inv(s) && Only(s, s', t) && s'.blocks == s.blocks
    requires TaskOk(t, s'.tasks[t], s'.timers, s'.wakers)
    requires !s'.tasks[t].at.Queued? && (t in s.tasks ==> !s.tasks[t].at.Queued?)
    ensures Inv(s')
  {
    QueuesUnmoved(s.blocks, s.tasks, t, s'.tasks[t]);
    Frame(s, s', t);
  }

  lemma FireKeepsInv(s: State, tm: TimerId)
    requires Inv(s) && Enabled(s, Fire(tm))
    ensures Inv(Exec(s, Fire(tm)))
  {
    if s.timers[tm].state.Armed? {
      var s' := SetTimer(s, tm, Called);
      var t := s.timers[tm].task;
      FiredTaskOk(s, tm);
      assert s.tasks == s.tasks[t := s.tasks[t]];
      OnlyTimer(s, s', t, tm);
      Frame(s, s', t);
    }
  }

  lemma FiredTaskOk(s: State, tm: TimerId)
    requires Inv(s) && tm in s.timers && s.timers[tm].state.Armed?
    ensures var t := s.timers[tm].task;
            t in s.tasks && TaskOk(t, s.tasks[t], SetTimer(s, tm, Called).timers, s.wakers)
  {
    var t := s.timers[tm].task;
    assert TaskOk(t, s.tasks[t], s.timers, s.wakers);
    HoldersUpdate(s.timers, tm, s.timers[tm].(state := Called), t);
  }

  /** The callback compares the wait numbers: they agree. */
  lemma CalledTaskOk(s: State, tm: TimerId, t: TaskId)
    requires Enabled(s, TimerStep(tm)) && t == s.timers[tm].task
    requires TaskOk(t, s.tasks[t], s.timers, s.wakers)
    requires s.timers[tm].state.Called?
    ensures var s' := ExecTimer(s, tm); TaskOk(t, s'.tasks[t], s'.timers, s'.wakers)
  {
    var s' := ExecTimer(s, tm);
    HoldersUpdate(s.timers, tm, s'.timers[tm], t);
    assert s'.timers == s.timers[tm := s'.timers[tm]];
    assert s.tasks[t].timer == Some(tm) && s'.timers[tm].state.Cancelling?;
  }

  /** The callback erases its task only if that task is still queued for the wait that armed it. */
  lemma CancellingTaskOk(s: State, tm: TimerId, t: TaskId)
    requires Enabled(s, TimerStep(tm)) && t == s.timers[tm].task
    requires TaskOk(t, s.tasks[t], s.timers, s.wakers)
    requires s.timers[tm].state.Cancelling? && NoDup(s.blocks[s.timers[tm].b].queue)
    requires t in s.blocks[s.timers[tm].b].queue <==> s.tasks[t].at == Queued(s.timers[tm].b)
    ensures var s' := ExecTimer(s, tm); TaskOk(t, s'.tasks[t], s'.timers, s'.wakers)
  {
    var s' := ExecTimer(s, tm);
    HoldersUpdate(s.timers, tm, s'.timers[tm], t);
    assert s'.timers == s.timers[tm := s'.timers[tm]];
    assert s.tasks[t].timer == Some(tm) && s.tasks[t].serial == s.timers[tm].serial;
  }

  lemma ErasingTaskOk(s: State, tm: TimerId, t: TaskId)
    requires Enabled(s, TimerStep(tm)) && t == s.timers[tm].task
    requires TaskOk(t, s.tasks[t], s.timers, s.wakers)
    requires Erasing(s.timers[tm])
    ensures var s' := ExecTimer(s, tm); TaskOk(t, s'.tasks[t], s'.timers, s'.wakers)
  {
    var s' := ExecTimer(s, tm);
    HoldersUpdate(s.timers, tm, s'.timers[tm], t);
    assert s'.timers == s.timers[tm := s'.timers[tm]];
    assert s.tasks[t].timer == Some(tm) && s.tasks[t].at == InTimer(tm);
  }

  lemma LeavingTaskOk(s: State, tm: TimerId, t: TaskId)
    requires Enabled(s, TimerStep(tm)) && t == s.timers[tm].task
    requires TaskOk(t, s.tasks[t], s.timers, s.wakers)
    requires s.timers[tm].state.Leaving?
    ensures var s' := ExecTimer(s, tm); TaskOk(t, s'.tasks[t], s'.timers, s'.wakers)
  {
    var s' := ExecTimer(s, tm);
    HoldersUpdate(s.timers, tm, s'.timers[tm], t);
    assert s'.timers == s.timers[tm := s'.timers[tm]];
  }

  lemma TimerTaskOk(s: State, tm: TimerId, t: TaskId)
    requires Enabled(s, TimerStep(tm)) && t == s.timers[tm].task
    requires TaskOk(t, s.tasks[t], s.timers, s.wakers)
    requires NoDup(s.blocks[s.timers[tm].b].queue)
    requires t in s.blocks[s.timers[tm].b].queue <==> s.tasks[t].at == Queued(s.timers[tm].b)
    ensures var s' := ExecTimer(s, tm); TaskOk(t, s'.tasks[t], s'.timers, s'.wakers)
  {
    var x := s.timers[tm];
    if x.state.Called? {
      CalledTaskOk(s, tm, t);
    } else if x.state.Cancelling? {
      CancellingTaskOk(s, tm, t);
    } else if Erasing(x) {
      ErasingTaskOk(s, tm, t);
    } else {
      LeavingTaskOk(s, tm, t);
    }
  }

  lemma TimerOnly(s: State, tm: TimerId, t: TaskId)
    requires Enabled(s, TimerStep(tm)) && t == s.timers[tm].task
    ensures Only(s, ExecTimer(s, tm), t)
  {
    assert s.tasks == s.tasks[t := s.tasks[t]];
    OnlyTimer(s, ExecTimer(s, tm), t, tm);
  }

  lemma TimerStepKeepsInv(s: State, tm: TimerId)
    requires Inv(s) && Enabled(s, TimerStep(tm))
    ensures Inv(ExecTimer(s, tm))
  {
    var t := s.timers[tm].task;
    assert TaskOk(t, s.tasks[t], s.timers, s.wakers);
    assert Settled(s.blocks[s.timers[tm].b]);
    TimerTaskOk(s, tm, t);
    TimerOnly(s, tm, t);
    TimerQueues(s, tm, t);
    Frame(s, ExecTimer(s, tm), t);
  }

  lemma TimerQueues(s: State, tm: TimerId, t: TaskId)
    requires Enabled(s, TimerStep(tm)) && t == s.timers[tm].task
    requires TaskOk(t, s.tasks[t], s.timers, s.wakers) && QueuesOk(s.blocks, s.tasks)
    ensures QueuesOk(ExecTimer(s, tm).blocks, ExecTimer(s, tm).tasks)
  {
    var s' := ExecTimer(s, tm);
    var x := s.timers[tm];
    if x.state.Cancelling? && t in s.blocks[x.b].queue {
      QueuesCancel(s.blocks, s.tasks, x.b, t, s'.tasks[t]);
    } else if Erasing(x) {
      QueuesUnmoved(s.blocks, s.tasks, t, s'.tasks[t]);
    } else {
      QueuesSameAt(s.blocks, s.tasks, t, s'.tasks[t]);
      assert s.tasks == s.tasks[t := s.tasks[t]];
    }
  }

  lemma QueuesSameAt(blocks: map<BlockId, Block>, tasks: map<TaskId, Task>, t: TaskId, k: Task)
    requires QueuesOk(blocks, tasks) && t in tasks && k.at == tasks[t].at
    ensures QueuesOk(blocks, tasks[t := k])
  {
  }

  lemma StepKeepsInv(s: State, step: Step)
    requires Inv(s) && Enabled(s, step)
    ensures Inv(Exec(s, step))
  {
    match step
    case Spawn(t) => SpawnKeepsInv(s, t);
    case NewBlock(_, _, _) => BlockStepKeepsInv(s, step);
    case TryWait(_) => BlockStepKeepsInv(s, step);
    case StartWait(t, b, timed) => StartWaitKeepsInv(s, t, b, timed);
    case AddWait(t, tm) => AddWaitKeepsInv(s, t, tm);
    case Wake(b, w) => WakeKeepsInv(s, b, w);
    case WakerStep(w) => WakerStepKeepsInv(s, w);
    case Fire(tm) => FireKeepsInv(s, tm);
    case TimerStep(tm) => TimerStepKeepsInv(s, tm);
    case _ => LocalStepKeepsInv(s, step);
  }

  // ---- every run ----

  ghost predicate IsRun(run: seq<State>, steps: seq<Step>) {
    && |run| == |steps| + 1 && run[0] == Init()
    && forall i :: 0 <= i < |steps| ==> Enabled(run[i], steps[i]) && run[i + 1] == Exec(run[i], steps[i])
  }

  lemma {:induction false} RunKeepsInv(run: seq<State>, steps: seq<Step>, i: nat)
    requires IsRun(run, steps) && i < |run|
    ensures Inv(run[i])
  {
    if i == 0 {
      InitInv();
    } else {
      RunKeepsInv(run, steps, i - 1);
      StepKeepsInv(run[i - 1], steps[i - 1]);
    }
  }

  /** When a wait returns, the task was made runnable exactly once for it, and the result `!timedOut`
      is true exactly when the wait consumed a signal, of which it never consumes two. */
  lemma WaitReturnsTruth(run: seq<State>, steps: seq<Step>, i: nat, t: TaskId)
    requires IsRun(run, steps) && i < |run| && Enabled(run[i], Return(t))
    ensures run[i].tasks[t].releases == 1
    ensures !run[i].tasks[t].timedOut <==> run[i].tasks[t].signals == 1
    ensures run[i].tasks[t].timedOut <==> run[i].tasks[t].signals == 0
  {
    RunKeepsInv(run, steps, i);
    assert TaskOk(t, run[i].tasks[t], run[i].timers, run[i].wakers);
  }

  /** A waiter is released by at most one party: a task in the hand of a waker or of a timer callback
      is in no queue and in no other hand, and has not been released yet. */
  lemma OneReleaser(run: seq<State>, steps: seq<Step>, i: nat, t: TaskId)
    requires IsRun(run, steps) && i < |run| && t in run[i].tasks
    ensures forall w :: w in run[i].wakers && run[i].wakers[w].task == t ==>
      && run[i].tasks[t].at == InWaker(w) && run[i].tasks[t].releases == 0
      && forall b :: b in run[i].blocks ==> t !in run[i].blocks[b].queue
    ensures forall tm :: tm in run[i].timers && run[i].timers[tm].task == t && Erasing(run[i].timers[tm]) ==>
      && run[i].tasks[t].at == InTimer(tm) && run[i].tasks[t].releases == 0
      && forall b :: b in run[i].blocks ==> t !in run[i].blocks[b].queue
  {
    RunKeepsInv(run, steps, i);
    assert TaskOk(t, run[i].tasks[t], run[i].timers, run[i].wakers);
    assert forall b :: b in run[i].blocks && t in run[i].blocks[b].queue ==> run[i].tasks[t].at == Queued(b);
  }

  /** A stale timer touches nothing: a timer that can still reach its task belongs to the task's
      current wait, and the timer a waker cancels or finds dead is never one of another task. */
  lemma StaleTimerIsHarmless(run: seq<State>, steps: seq<Step>, i: nat, tm: TimerId)
    requires IsRun(run, steps) && i < |run| && tm in run[i].timers
    ensures var x := run[i].timers[tm];
            && x.task in run[i].tasks
            && (Live(x) || Erasing(x) ==> run[i].tasks[x.task].timer == Some(tm))
            && (Live(x) ==> run[i].tasks[x.task].serial == x.serial)
            && (x.serial != run[i].tasks[x.task].serial && !Erasing(x) && !x.state.Killed? ==> Quiet(x))
  {
    RunKeepsInv(run, steps, i);
    var t := run[i].timers[tm].task;
    assert TaskOk(t, run[i].tasks[t], run[i].timers, run[i].wakers);
  }

  /** The reference a timer takes is dropped once, by its callback or by the waker that cancelled it,
      and a task outlives every reference: the count is the sum of its holders. */
  lemma TimerReferenceDroppedOnce(run: seq<State>, steps: seq<Step>, i: nat, tm: TimerId)
    requires IsRun(run, steps) && i < |run| && tm in run[i].timers
    ensures var x := run[i].timers[tm];
            && x.drops <= 1
            && (x.drops == 1 <==> x.state.Done? || x.state.Gone?)
            && x.task in run[i].tasks
            && run[i].tasks[x.task].refs
               == 1 + One(run[i].tasks[x.task].at.Queued?) + |Holders(run[i].timers, x.task)|
  {
    RunKeepsInv(run, steps, i);
    var t := run[i].timers[tm].task;
    assert TaskOk(t, run[i].tasks[t], run[i].timers, run[i].wakers);
  }

  /** The assertion in the scheduler that a yielding `sys_block` task has a block object holds, and
      a signal and a waiter never coexist in any block object. */
  lemma BlockedTaskHasBlock(run: seq<State>, steps: seq<Step>, i: nat, t: TaskId, b: BlockId)
    requires IsRun(run, steps) && i < |run|
    ensures t in run[i].tasks && run[i].tasks[t].at.Running? && run[i].tasks[t].sysBlock ==>
      run[i].tasks[t].block.Some?
    ensures b in run[i].blocks && run[i].blocks[b].wakeup > 0 ==> run[i].blocks[b].queue == []
  {
    RunKeepsInv(run, steps, i);
    if t in run[i].tasks {
      assert TaskOk(t, run[i].tasks[t], run[i].timers, run[i].wakers);
    }
    assert b in run[i].blocks ==> Settled(run[i].blocks[b]);
  }

  // ---- a wait has a timer exactly when it was asked for ----

  /** Whether the last wait of `t` that had to wait, among the first `i` steps, was a timed one. */
  ghost function Asked(run: seq<State>, steps: seq<Step>, t: TaskId, i: nat): bool
    requires IsRun(run, steps) && i <= |steps|
  {
    if i == 0 then false
    else if steps[i - 1].StartWait? && steps[i - 1].t == t && run[i - 1].blocks[steps[i - 1].b].wakeup == 0 then steps[i - 1].timed
    else Asked(run, steps, t, i - 1)
  }

  predicate KnowsTimed(s: State, t: TaskId, asked: bool) {
    if t in s.tasks then (if s.tasks[t].at.Preparing? then s.tasks[t].at.timed else s.tasks[t].timed) == asked
    else !asked
  }

  /** A party that moves another task finds it past its preparations. */
  lemma WakerOffPreparing(s: State, w: WakerId, t: TaskId)
    requires t in s.tasks && TaskOk(t, s.tasks[t], s.timers, s.wakers) && s.tasks[t].at.Preparing?
    requires Enabled(s, WakerStep(w))
    ensures t in ExecWaker(s, w).tasks && ExecWaker(s, w).tasks[t].at == s.tasks[t].at
  {
    assert s.wakers[w].task != t;
  }

  lemma TimerOffPreparing(s: State, tm: TimerId, t: TaskId)
    requires t in s.tasks && TaskOk(t, s.tasks[t], s.timers, s.wakers) && s.tasks[t].at.Preparing?
    requires Enabled(s, TimerStep(tm))
    ensures t in ExecTimer(s, tm).tasks && ExecTimer(s, tm).tasks[t].at == s.tasks[t].at
  {
    assert s.timers[tm].task == t ==> s.timers[tm].state.Leaving?;
  }

  lemma HandsOffPreparing(s: State, step: Step, t: TaskId)
    requires Inv(s) && Enabled(s, step) && (step.WakerStep? || step.TimerStep?) && t in s.tasks && s.tasks[t].at.Preparing?
    ensures t in Exec(s, step).tasks && Exec(s, step).tasks[t].at == s.tasks[t].at
  {
    if step.WakerStep? {
      WakerOffPreparing(s, step.w, t);
    } else {
      TimerOffPreparing(s, step.tm, t);
    }
  }

  predicate KeepsTimed(s: State, s': State, t: TaskId) {
    && (t in s'.tasks <==> t in s.tasks)
    && (t in s.tasks ==> s'.tasks[t].timed == s.tasks[t].timed && (s'.tasks[t].at.Preparing? ==> s.tasks[t].at.Preparing?))
  }

  lemma WakerKeepsTimed(s: State, w: WakerId, t: TaskId)
    requires Enabled(s, WakerStep(w))
    ensures KeepsTimed(s, ExecWaker(s, w), t)
  {
  }

  lemma TimerKeepsTimed(s: State, tm: TimerId, t: TaskId)
    requires Enabled(s, TimerStep(tm))
    ensures KeepsTimed(s, ExecTimer(s, tm), t)
  {
  }

  lemma HandsKeepTimed(s: State, step: Step, t: TaskId)
    requires Enabled(s, step) && (step.WakerStep? || step.TimerStep?)
    ensures KeepsTimed(s, Exec(s, step), t)
  {
    if step.WakerStep? {
      WakerKeepsTimed(s, step.w, t);
    } else {
      TimerKeepsTimed(s, step.tm, t);
    }
  }

  lemma WakeKeepsTimed(s: State, b: BlockId, w: WakerId, t: TaskId, asked: bool)
    requires QueuesOk(s.blocks, s.tasks) && Enabled(s, Wake(b, w)) && KnowsTimed(s, t, asked)
    ensures KnowsTimed(ExecWake(s, b, w), t, asked)
  {
    assert s.blocks[b].queue != [] ==> s.blocks[b].queue[0] in s.blocks[b].queue;
  }

  lemma OwnStepTimed(s: State, step: Step, t: TaskId, asked: bool)
    requires Enabled(s, step) && KnowsTimed(s, t, asked) && !step.Wake? && !step.WakerStep? && !step.TimerStep?
    ensures KnowsTimed(Exec(s, step), t,
      if step.StartWait? && step.t == t && s.blocks[step.b].wakeup == 0 then step.timed else asked)
  {
  }

  lemma KnowsTimedStep(s: State, step: Step, t: TaskId, asked: bool)
    requires Inv(s) && Enabled(s, step) && KnowsTimed(s, t, asked)
    ensures KnowsTimed(Exec(s, step), t,
      if step.StartWait? && step.t == t && s.blocks[step.b].wakeup == 0 then step.timed else asked)
  {
    if step.Wake? {
      WakeKeepsTimed(s, step.b, step.w, t, asked);
    } else if step.WakerStep? || step.TimerStep? {
      HandsKeepTimed(s, step, t);
      if t in s.tasks && s.tasks[t].at.Preparing? {
        HandsOffPreparing(s, step, t);
      }
    } else {
      OwnStepTimed(s, step, t, asked);
    }
  }

  lemma {:induction false} AskedIsKept(run: seq<State>, steps: seq<Step>, t: TaskId, i: nat)
    requires IsRun(run, steps) && i <= |steps|
    ensures KnowsTimed(run[i], t, Asked(run, steps, t, i))
  {
    if i > 0 {
      AskedIsKept(run, steps, t, i - 1);
      RunKeepsInv(run, steps, i - 1);
      KnowsTimedStep(run[i - 1], steps[i - 1], t, Asked(run, steps, t, i - 1));
    }
  }

  /** A queued task has a timer that can still reach it if and only if its wait was a timed one, and that
      timer is for this task, this block object and this wait. */
  lemma TimerIffTimed(run: seq<State>, steps: seq<Step>, i: nat, t: TaskId)
    requires IsRun(run, steps) && i <= |steps| && t in run[i].tasks && run[i].tasks[t].at.Queued?
    ensures Asked(run, steps, t, i) <==> exists tm: TimerId :: LiveFor(run[i], tm, t)
    ensures forall tm: TimerId :: LiveFor(run[i], tm, t) ==>
      run[i].timers[tm].b == run[i].tasks[t].at.b && run[i].timers[tm].serial == run[i].tasks[t].serial
  {
    RunKeepsInv(run, steps, i);
    AskedIsKept(run, steps, t, i);
    LiveIffTimed(run[i], t);
  }

  /** The timer can still reach task `t`. */
  predicate LiveFor(s: State, tm: TimerId, t: TaskId) { tm in s.timers && s.timers[tm].task == t && Live(s.timers[tm]) }

  lemma LiveIffTimed(s: State, t: TaskId)
    requires Inv(s) && t in s.tasks && s.tasks[t].at.Queued?
    ensures s.tasks[t].timed <==> exists tm: TimerId :: LiveFor(s, tm, t)
    ensures forall tm: TimerId :: LiveFor(s, tm, t) ==>
      s.timers[tm].b == s.tasks[t].at.b && s.timers[tm].serial == s.tasks[t].serial
  {
    var k := s.tasks[t];
    assert TaskOk(t, k, s.timers, s.wakers);
    if k.timed {
      assert LiveFor(s, k.timer.value, t);
    }
    forall tm: TimerId | LiveFor(s, tm, t) ensures k.timer == Some(tm) && k.timed {
    }
  }

  // ---- those already at work bring the wait to its end ----

  ghost predicate Leads(s: State, steps: seq<Step>, end: State)
    decreases |steps|
  {
    if steps == [] then s == end else Enabled(s, steps[0]) && Leads(Exec(s, steps[0]), steps[1..], end)
  }

  lemma LeadsOn(s: State, step: Step, steps: seq<Step>, end: State)
    requires Enabled(s, step) && Leads(Exec(s, step), steps, end)
    ensures Leads(s, [step] + steps, end)
  {
    assert ([step] + steps)[1..] == steps;
  }

  /** The steps that a running callback has left before its task runs. */
  function Left(st: TimerState): nat {
    match st
    case Called => 5
    case Cancelling => 4
    case EClear => 3
    case EFlag => 2
    case ERun => 1
    case _ => 0
  }

  /** The steps are the call of `tm` and those of its callback. */
  ghost predicate OnlyCallback(steps: seq<Step>, tm: TimerId) {
    steps == [] || ((steps[0] == Fire(tm) || steps[0] == TimerStep(tm)) && OnlyCallback(steps[1..], tm))
  }

  /** The callback of `tm` finds its task `t` queued, or has it in its hand. */
  ghost predicate Reaches(s: State, tm: TimerId, t: TaskId) {
    && tm in s.timers && s.timers[tm].task == t && Left(s.timers[tm].state) > 0
    && s.timers[tm].b in s.blocks && t in s.tasks
    && (s.tasks[t].at == InTimer(tm) || s.tasks[t].at == Queued(s.timers[tm].b))
  }

  lemma CallbackStep(s: State, tm: TimerId, t: TaskId)
    requires Reaches(s, tm, t) && TaskOk(t, s.tasks[t], s.timers, s.wakers)
    requires s.tasks[t].at.Queued? ==> t in s.blocks[s.tasks[t].at.b].queue
    ensures Enabled(s, TimerStep(tm))
    ensures var s' := ExecTimer(s, tm);
            && t in s'.tasks && s'.tasks[t].waiting == s.tasks[t].waiting && s'.tasks[t].signals == 0
            && if s.timers[tm].state.ERun? then s'.tasks[t].at == Running && s'.tasks[t].timedOut
               else Reaches(s', tm, t) && Left(s'.timers[tm].state) == Left(s.timers[tm].state) - 1
  {
    assert s.tasks[t].timer == Some(tm);
  }

  lemma CallbackNext(s: State, tm: TimerId, t: TaskId)
    requires Inv(s) && Reaches(s, tm, t)
    ensures Enabled(s, TimerStep(tm))
    ensures var s' := Exec(s, TimerStep(tm));
            && Inv(s') && t in s'.tasks && s'.tasks[t].waiting == s.tasks[t].waiting && s'.tasks[t].signals == 0
            && if s.timers[tm].state.ERun? then s'.tasks[t].at == Running && s'.tasks[t].timedOut
               else Reaches(s', tm, t) && Left(s'.timers[tm].state) == Left(s.timers[tm].state) - 1
  {
    assert TaskOk(t, s.tasks[t], s.timers, s.wakers);
    CallbackStep(s, tm, t);
    TimerStepKeepsInv(s, tm);
  }

  /** Such a callback makes the task runnable with a timeout. */
  lemma {:induction false} CallbackReleases(s: State, tm: TimerId, t: TaskId) returns (steps: seq<Step>, end: State)
    requires Inv(s) && Reaches(s, tm, t)
    ensures OnlyCallback(steps, tm)
    ensures Leads(s, steps, end) && t in end.tasks && end.tasks[t].at == Running
    ensures end.tasks[t].timedOut && end.tasks[t].signals == 0 && end.tasks[t].waiting == s.tasks[t].waiting
    decreases Left(s.timers[tm].state)
  {
    CallbackNext(s, tm, t);
    var s' := Exec(s, TimerStep(tm));
    if s.timers[tm].state.ERun? {
      steps, end := [], s';
    } else {
      steps, end := CallbackReleases(s', tm, t);
    }
    LeadsOn(s, TimerStep(tm), steps, end);
    steps := [TimerStep(tm)] + steps;
  }

  /** The task runs and is in no wait. */
  predicate Free(s: State, t: TaskId) { t in s.tasks && s.tasks[t].at == Running && !s.tasks[t].waiting }

  /** A timed wait that nobody signals ends: from wherever its task is queued, the timer's callback alone
      leads to the return of the call, with false and no signal consumed. */
  lemma TimeoutReturns(run: seq<State>, steps: seq<Step>, i: nat, t: TaskId)
    returns (tm: TimerId, rest: seq<Step>, end: State)
    requires IsRun(run, steps) && i <= |steps| && t in run[i].tasks && run[i].tasks[t].at.Queued?
    requires Asked(run, steps, t, i)
    ensures OnlyCallback(rest, tm)
    ensures Leads(run[i], rest, end) && t in end.tasks && end.tasks[t].at == Running
    ensures end.tasks[t].timedOut && end.tasks[t].signals == 0
    ensures run[i].tasks[t].waiting ==> Enabled(end, Return(t)) && Free(Exec(end, Return(t)), t)
  {
    RunKeepsInv(run, steps, i);
    TimerIffTimed(run, steps, i, t);
    tm :| LiveFor(run[i], tm, t);
    rest, end := LiveReleases(run[i], tm, t);
  }

  lemma QueuedAtBlock(s: State, t: TaskId)
    requires Inv(s) && t in s.tasks && s.tasks[t].at.Queued?
    ensures s.tasks[t].at.b in s.blocks
  {
  }

  lemma LiveReleases(s: State, tm: TimerId, t: TaskId) returns (rest: seq<Step>, end: State)
    requires Inv(s) && t in s.tasks && s.tasks[t].at.Queued?
    requires LiveFor(s, tm, t) && s.timers[tm].b == s.tasks[t].at.b
    ensures OnlyCallback(rest, tm)
    ensures Leads(s, rest, end) && t in end.tasks && end.tasks[t].at == Running
    ensures end.tasks[t].timedOut && end.tasks[t].signals == 0 && end.tasks[t].waiting == s.tasks[t].waiting
  {
    QueuedAtBlock(s, t);
    if s.timers[tm].state.Armed? {
      FireKeepsInv(s, tm);
      var more;
      more, end := CallbackReleases(SetTimer(s, tm, Called), tm, t);
      LeadsOn(s, Fire(tm), more, end);
      rest := [Fire(tm)] + more;
    } else {
      rest, end := CallbackReleases(s, tm, t);
    }
  }

  /** The block object of a timer exists. */
  ghost predicate TimersHaveBlocks(s: State) {
    forall tm :: tm in s.timers ==> s.timers[tm].b in s.blocks
  }

  lemma {:induction false} RunHasBlocks(run: seq<State>, steps: seq<Step>, i: nat)
    requires IsRun(run, steps) && i < |run|
    ensures TimersHaveBlocks(run[i])
  {
    if i > 0 {
      RunHasBlocks(run, steps, i - 1);
      StepHasBlocks(run[i - 1], steps[i - 1]);
    }
  }

  lemma StepHasBlocks(s: State, step: Step)
    requires TimersHaveBlocks(s) && Enabled(s, step)
    ensures TimersHaveBlocks(Exec(s, step))
  {
  }

  function Rank(stage: Stage): nat {
    match stage
    case WClear => 5
    case WTimer => 4
    case WDec => 3
    case WReset => 2
    case WRun => 1
  }

  /** What a waker does next with the task in its hand, after the callback that holds the timer's lock. */
  function NextOf(s: State, w: WakerId): Step
    requires w in s.wakers && s.wakers[w].task in s.tasks
  {
    var timer := s.tasks[s.wakers[w].task].timer;
    if s.wakers[w].stage.WTimer? && timer.Some? && timer.value in s.timers && !LockFree(s.timers[timer.value])
    then TimerStep(timer.value) else WakerStep(w)
  }

  function TimerRank(s: State, t: TaskId): nat
    requires t in s.tasks
  {
    var timer := s.tasks[t].timer;
    if timer.None? || timer.value !in s.timers then 0
    else match s.timers[timer.value].state
         case Called => 3
         case Cancelling => 2
         case Leaving => 1
         case _ => 0
  }

  /** How far the hand of waker `w` is from `s` to `s'`: the task runs, or there is less to do. */
  ghost predicate HandMoves(s: State, s': State, w: WakerId, t: TaskId)
    requires w in s.wakers && t in s.tasks
  {
    && t in s'.tasks && s'.tasks[t].waiting == s.tasks[t].waiting
    && if w !in s'.wakers then
         && s'.tasks[t].at == Running && s'.tasks[t].signals == 1 && s'.tasks[t].releases == 1
         && (s.tasks[t].waiting ==> !s'.tasks[t].timedOut)
       else
         && s'.wakers[w].task == t
         && (Rank(s'.wakers[w].stage) < Rank(s.wakers[w].stage)
             || (s'.wakers[w] == s.wakers[w] && TimerRank(s', t) < TimerRank(s, t)))
  }

  lemma HandWakerStep(s: State, w: WakerId, t: TaskId)
    requires w in s.wakers && s.wakers[w].task == t && t in s.tasks && NextOf(s, w) == WakerStep(w)
    requires TaskOk(t, s.tasks[t], s.timers, s.wakers)
    ensures Enabled(s, WakerStep(w)) && HandMoves(s, ExecWaker(s, w), w, t)
  {
  }

  lemma HandTimerStep(s: State, w: WakerId, t: TaskId, tm: TimerId)
    requires TimersHaveBlocks(s) && w in s.wakers && s.wakers[w].task == t && t in s.tasks && NextOf(s, w) == TimerStep(tm)
    requires TaskOk(t, s.tasks[t], s.timers, s.wakers)
    requires tm in s.timers && s.timers[tm].b in s.blocks ==> t !in s.blocks[s.timers[tm].b].queue
    ensures Enabled(s, TimerStep(tm)) && HandMoves(s, ExecTimer(s, tm), w, t)
  {
  }

  lemma HandStep(s: State, w: WakerId, t: TaskId)
    requires Inv(s) && TimersHaveBlocks(s) && w in s.wakers && s.wakers[w].task == t && t in s.tasks
    ensures Enabled(s, NextOf(s, w)) && HandMoves(s, Exec(s, NextOf(s, w)), w, t)
  {
    assert TaskOk(t, s.tasks[t], s.timers, s.wakers);
    if NextOf(s, w).TimerStep? {
      HandTimerStep(s, w, t, NextOf(s, w).tm);
    } else {
      HandWakerStep(s, w, t);
    }
  }

  lemma StepKeepsBoth(s: State, step: Step)
    requires Inv(s) && TimersHaveBlocks(s) && Enabled(s, step)
    ensures Inv(Exec(s, step)) && TimersHaveBlocks(Exec(s, step))
  {
    StepKeepsInv(s, step);
    StepHasBlocks(s, step);
  }

  /** Once a waker has popped a task, it and the callback it waits for make the task runnable with the
      signal and without a timeout, whatever the timer was about to do. */
  lemma {:induction false} HandReleases(s: State, w: WakerId, t: TaskId) returns (steps: seq<Step>, end: State)
    requires Inv(s) && TimersHaveBlocks(s) && w in s.wakers && s.wakers[w].task == t && t in s.tasks
    ensures forall i :: 0 <= i < |steps| ==> steps[i] == WakerStep(w) || steps[i].TimerStep?
    ensures Leads(s, steps, end) && t in end.tasks && end.tasks[t].at == Running
    ensures end.tasks[t].signals == 1 && end.tasks[t].releases == 1 && end.tasks[t].waiting == s.tasks[t].waiting
    ensures s.tasks[t].waiting ==> !end.tasks[t].timedOut
    decreases Rank(s.wakers[w].stage), TimerRank(s, t)
  {
    var step := NextOf(s, w);
    HandStep(s, w, t);
    var s' := Exec(s, step);
    StepKeepsBoth(s, step);
    var more: seq<Step> := [];
    if w !in s'.wakers {
      end := s';
    } else {
      more, end := HandReleases(s', w, t);
    }
    LeadsOn(s, step, more, end);
    steps := [step] + more;
    assert forall i :: 0 < i < |steps| ==> steps[i] == more[i - 1];
  }

  /** A signal for the first task of a queue ends that task's wait with true. */
  lemma WakeReturns(run: seq<State>, steps: seq<Step>, i: nat, b: BlockId, w: WakerId)
    returns (rest: seq<Step>, end: State)
    requires IsRun(run, steps) && i <= |steps| && Enabled(run[i], Wake(b, w)) && run[i].blocks[b].queue != []
    ensures var t := run[i].blocks[b].queue[0];
            && Leads(run[i], [Wake(b, w)] + rest, end)
            && (forall j :: 0 <= j < |rest| ==> rest[j] == WakerStep(w) || rest[j].TimerStep?)
            && t in run[i].tasks && t in end.tasks && end.tasks[t].at == Running && end.tasks[t].signals == 1
            && (run[i].tasks[t].waiting ==>
                  !end.tasks[t].timedOut && Enabled(end, Return(t)) && Free(Exec(end, Return(t)), t))
  {
    var s := run[i];
    var t := s.blocks[b].queue[0];
    RunKeepsInv(run, steps, i);
    RunHasBlocks(run, steps, i);
    assert t in s.blocks[b].queue;
    StepKeepsInv(s, Wake(b, w));
    StepHasBlocks(s, Wake(b, w));
    rest, end := HandReleases(Exec(s, Wake(b, w)), w, t);
    LeadsOn(s, Wake(b, w), rest, end);
  }

  // ---- every signal is accounted for ----

  /** What a step does to the signals stored in a block object: a wait or a try that finds one takes it,
      and `Wakeup` stores one when nobody is queued and there is room. */
  function Change(s: State, step: Step, b: BlockId): int
    requires b in s.blocks && Enabled(s, step)
  {
    var x := s.blocks[b];
    match step
    case TryWait(c) => if c == b && x.wakeup > 0 then -1 else 0
    case StartWait(_, c, _) => if c == b && x.wakeup > 0 then -1 else 0
    case AddWait(t, _) => if s.tasks[t].at.b == b && x.wakeup > 0 then -1 else 0
    case Wake(c, _) => if c == b && x.queue == [] && x.wakeup < x.limit then 1 else 0
    case _ => 0
  }

  /** The signals that are stored, from the steps: the initial ones and all changes since. */
  ghost function Stored(run: seq<State>, steps: seq<Step>, b: BlockId, i: nat): int
    requires IsRun(run, steps) && i <= |steps|
  {
    if i == 0 then 0
    else if steps[i - 1].NewBlock? && steps[i - 1].b == b then steps[i - 1].init
    else Stored(run, steps, b, i - 1) + if b in run[i - 1].blocks then Change(run[i - 1], steps[i - 1], b) else 0
  }

  lemma StoredStep(s: State, step: Step, b: BlockId)
    requires Enabled(s, step) && b in Exec(s, step).blocks
    ensures Exec(s, step).blocks[b].wakeup
         == if b !in s.blocks then step.init else s.blocks[b].wakeup + Change(s, step, b)
    ensures b !in s.blocks ==> step.NewBlock? && step.b == b
  {
  }

  /** Over every run no signal appears or gets lost in a block object. */
  lemma {:induction false} SignalsConserved(run: seq<State>, steps: seq<Step>, b: BlockId, i: nat)
    requires IsRun(run, steps) && i <= |steps| && b in run[i].blocks
    ensures run[i].blocks[b].wakeup == Stored(run, steps, b, i)
  {
    StoredStep(run[i - 1], steps[i - 1], b);
    if b in run[i - 1].blocks {
      SignalsConserved(run, steps, b, i - 1);
    }
  }

  // ---- the number of a wait, and where a plain yield goes ----

  /** Each wait that had to wait has its own number. */
  ghost function Waits(steps: seq<Step>, t: TaskId, i: nat): nat
    requires i <= |steps|
  {
    if i == 0 then 0 else Waits(steps, t, i - 1) + One(steps[i - 1] == SetUp(t))
  }

  lemma SerialStep(s: State, step: Step, t: TaskId)
    requires Enabled(s, step) && t in Exec(s, step).tasks
    ensures Exec(s, step).tasks[t].serial == (if t in s.tasks then s.tasks[t].serial else 0) + One(step == SetUp(t))
  {
  }

  lemma {:induction false} SerialCounts(run: seq<State>, steps: seq<Step>, t: TaskId, i: nat)
    requires IsRun(run, steps) && i <= |steps|
    ensures (if t in run[i].tasks then run[i].tasks[t].serial else 0) == Waits(steps, t, i)
  {
    if i > 0 {
      SerialCounts(run, steps, t, i - 1);
      if t in run[i].tasks {
        SerialStep(run[i - 1], steps[i - 1], t);
      } else if t in run[i - 1].tasks {
        StaysSpawned(run[i - 1], steps[i - 1], t);
      }
    }
  }

  lemma StaysSpawned(s: State, step: Step, t: TaskId)
    requires Enabled(s, step) && t in s.tasks
    ensures t in Exec(s, step).tasks
  {
  }

  /** The object that a task's plain yield goes back to: that of its last wait, unless it was woken or
      timed out since, or left `sys_block` in another way. */
  ghost function GoesBack(run: seq<State>, steps: seq<Step>, t: TaskId, i: nat): Option<BlockId>
    requires IsRun(run, steps) && i <= |steps|
  {
    if i == 0 then None
    else
      var step := steps[i - 1];
      if step == Forget(t) || Releases(run[i - 1], step, t) then None
      else if step.StartWait? && step.t == t && run[i - 1].blocks[step.b].wakeup == 0 then Some(step.b)
      else GoesBack(run, steps, t, i - 1)
  }

  /** A waker or a callback makes the task runnable. */
  predicate Releases(s: State, step: Step, t: TaskId) {
    || (step.WakerStep? && step.w in s.wakers && s.wakers[step.w] == Waker(t, WRun))
    || (step.TimerStep? && step.tm in s.timers && s.timers[step.tm].task == t && s.timers[step.tm].state == ERun)
  }

  predicate RemembersBlock(s: State, t: TaskId, back: Option<BlockId>) {
    if t !in s.tasks then back == None
    else
      var k := s.tasks[t];
      && k.sysBlock == back.Some?
      && (!k.at.InWaker? && !k.at.InTimer? && back.Some? ==> k.block == back)
  }

  lemma RemembersWaker(s: State, w: WakerId, t: TaskId, back: Option<BlockId>)
    requires Enabled(s, WakerStep(w)) && RemembersBlock(s, t, back)
    requires t in s.tasks ==> TaskOk(t, s.tasks[t], s.timers, s.wakers)
    ensures RemembersBlock(ExecWaker(s, w), t, if Releases(s, WakerStep(w), t) then None else back)
  {
  }

  lemma RemembersTimer(s: State, tm: TimerId, t: TaskId, back: Option<BlockId>)
    requires Enabled(s, TimerStep(tm)) && RemembersBlock(s, t, back)
    requires t in s.tasks ==> TaskOk(t, s.tasks[t], s.timers, s.wakers)
    ensures RemembersBlock(ExecTimer(s, tm), t, if Releases(s, TimerStep(tm), t) then None else back)
  {
  }

  lemma RemembersHands(s: State, step: Step, t: TaskId, back: Option<BlockId>)
    requires Inv(s) && Enabled(s, step) && (step.WakerStep? || step.TimerStep?) && RemembersBlock(s, t, back)
    ensures RemembersBlock(Exec(s, step), t, if Releases(s, step, t) then None else back)
  {
    if step.WakerStep? {
      RemembersWaker(s, step.w, t, back);
    } else {
      RemembersTimer(s, step.tm, t, back);
    }
  }

  lemma RemembersWake(s: State, b: BlockId, w: WakerId, t: TaskId, back: Option<BlockId>)
    requires Enabled(s, Wake(b, w)) && RemembersBlock(s, t, back)
    ensures RemembersBlock(ExecWake(s, b, w), t, back)
  {
  }

  lemma RemembersOwn(s: State, step: Step, t: TaskId, back: Option<BlockId>)
    requires Enabled(s, step) && !step.Wake? && !step.WakerStep? && !step.TimerStep? && RemembersBlock(s, t, back)
    ensures RemembersBlock(Exec(s, step), t,
      if step == Forget(t) then None
      else if step.StartWait? && step.t == t && s.blocks[step.b].wakeup == 0 then Some(step.b) else back)
  {
  }

  lemma {:induction false} BackIsRemembered(run: seq<State>, steps: seq<Step>, t: TaskId, i: nat)
    requires IsRun(run, steps) && i <= |steps|
    ensures RemembersBlock(run[i], t, GoesBack(run, steps, t, i))
  {
    if i > 0 {
      BackIsRemembered(run, steps, t, i - 1);
      RunKeepsInv(run, steps, i - 1);
      var back := GoesBack(run, steps, t, i - 1);
      if steps[i - 1].WakerStep? || steps[i - 1].TimerStep? {
        RemembersHands(run[i - 1], steps[i - 1], t, back);
      } else if steps[i - 1].Wake? {
        RemembersWake(run[i - 1], steps[i - 1].b, steps[i - 1].w, t, back);
      } else {
        RemembersOwn(run[i - 1], steps[i - 1], t, back);
      }
    }
  }

  /** A plain yield takes a task back to its old block object exactly when its last wait ended in
      `AddWaitTask`, and does nothing otherwise. */
  lemma PlainYieldGoesBack(run: seq<State>, steps: seq<Step>, t: TaskId, i: nat)
    requires IsRun(run, steps) && i <= |steps| && Enabled(run[i], PlainYield(t))
    ensures var back := GoesBack(run, steps, t, i);
            Exec(run[i], PlainYield(t)).tasks[t].at == if back.Some? then Yielding(back.value) else Running
  {
    BackIsRemembered(run, steps, t, i);
  }
}
