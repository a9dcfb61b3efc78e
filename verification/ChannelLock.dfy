/** The channel with its queue lock: the mutex around `queue_` is no longer one atomic step but a mutex
    like any other, entered, waited for and left. Everything else is the channel as it was. */
module LockedChannels {
  import opened Commons
  import opened BlockObjects
  import L = Ledgers
  import C = Channels
  import D = ChannelCalls

  /** `done` is the task that has pushed or popped and is about to unlock; `stale` are the tasks whose
      last wait was for the lock and ended in `AddWaitTask`, so that their next plain yield goes back to
      it. A task remembers one object only: a wait for the lock makes it forget the channel's, and the
      other way round. */
  datatype State<T> = State(chan: C.State<T>, lock: L.Mutex, done: set<TaskId>, stale: set<TaskId>)

  datatype Step<T> =
    | Chan(step: C.Step<T>)
    | Enter(t: TaskId)
    | Park(t: TaskId)
    | Section(step: C.Step<T>)
    | Leave(t: TaskId)
    | Forget(t: TaskId)

  function Init<T>(capacity: nat): State<T> { State(C.Init(capacity), L.NewMutex(), {}, {}) }

  /** The task is not on its way into the lock, nor on its way out. */
  predicate Outside<T>(s: State<T>, t: TaskId) {
    t !in s.lock.block.queue && t !in s.lock.wanting && t !in s.done
  }

  /** The task holds the lock and knows it. */
  predicate Holds<T>(s: State<T>, t: TaskId) { t in s.lock.holders && !s.lock.unaware }

  predicate Active<T>(s: State<T>, t: TaskId) { t in s.chan.tasks && s.chan.tasks[t].place == C.Place.Active }

  /** A plain yield: in user code, or in the retry loop of a read. */
  predicate Yields<T>(s: State<T>, t: TaskId) {
    Active(s, t) && (s.chan.tasks[t].pc == C.Pc.Idle || s.chan.tasks[t].pc == C.Pc.RYield)
  }

  predicate Enabled<T>(s: State<T>, step: Step<T>) {
    match step
    case Chan(c) =>
      C.Enabled(s.chan, c) && !c.Push? && !c.Pop? && Outside(s, c.t) && (c.Yield? ==> c.t !in s.stale)
    case Enter(t) =>
      Active(s, t) && (s.chan.tasks[t].pc.WCredit? || s.chan.tasks[t].pc.RItem?) && Outside(s, t) && !Holds(s, t)
    case Park(t) =>
      t !in s.lock.block.queue && t !in s.done && (t in s.lock.wanting || (t in s.stale && Yields(s, t)))
    case Section(c) => C.Enabled(s.chan, c) && (c.Push? || c.Pop?) && Outside(s, c.t) && Holds(s, c.t)
    case Leave(t) => t in s.done
    case Forget(t) => t in s.stale
  }

  /** What the step does to the lock, if anything. */
  function OpOf<T>(step: Step<T>): Option<L.MutexOp> {
    match step
    case Enter(t) => Some(L.MutexOp.Lock(t))
    case Park(t) => Some(L.MutexOp.Yield(t))
    case Leave(t) => Some(L.MutexOp.Unlock(t))
    case _ => None
  }

  function Locked<T>(lock: L.Mutex, step: Step<T>): L.Mutex {
    match OpOf(step)
    case None => lock
    case Some(op) => L.MutexApply(lock, op)
  }

  /** The step of the channel proper that goes with it. */
  function ChanStep<T>(s: State<T>, step: Step<T>): Option<C.Step<T>> {
    match step
    case Chan(c) => Some(c)
    case Section(c) => Some(c)
    case Enter(t) => if s.lock.block.wakeup > 0 then None else Some(C.Step.Forget(t))
    case Park(t) => if t in s.lock.wanting then None else Some(C.Step.Yield(t))
    case _ => None
  }

  /** It is always one that the channel can take. */
  lemma ChanStepIsEnabled<T>(s: State<T>, step: Step<T>)
    requires Enabled(s, step) && ChanStep(s, step).Some?
    ensures C.Enabled(s.chan, ChanStep(s, step).value)
  {
  }

  function ChanAfter<T>(s: State<T>, step: Step<T>): C.State<T>
    requires Enabled(s, step)
  {
    match ChanStep(s, step)
    case None => s.chan
    case Some(c) =>
      ChanStepIsEnabled(s, step);
      C.Exec(s.chan, c)
  }

  /** A wait on a block object of the channel makes the task forget the lock. */
  predicate WaitsOnChannel<T>(s: State<T>, c: C.Step<T>) {
    c.Wait? && C.Enabled(s.chan, c) && !TakeSignal(C.BlockOf(s.chan, C.SideOf(s.chan.tasks[c.t].pc))).0
  }

  function StaleAfter<T>(s: State<T>, step: Step<T>): set<TaskId> {
    match step
    case Chan(c) => if WaitsOnChannel(s, c) then s.stale - {c.t} else s.stale
    case Park(t) => if s.lock.block.wakeup > 0 then s.stale + {t} else s.stale
    case Leave(_) => if s.lock.block.queue != [] then s.stale - {s.lock.block.queue[0]} else s.stale
    case Forget(t) => s.stale - {t}
    case _ => s.stale
  }

  function DoneAfter<T>(done: set<TaskId>, step: Step<T>): set<TaskId> {
    match step
    case Section(c) => done + {c.t}
    case Leave(t) => done - {t}
    case _ => done
  }

  function Exec<T>(s: State<T>, step: Step<T>): State<T>
    requires Enabled(s, step)
  {
    State(ChanAfter(s, step), Locked(s.lock, step), DoneAfter(s.done, step), StaleAfter(s, step))
  }

  // ---- what every step keeps ----

  predicate LockOk(lock: L.Mutex, done: set<TaskId>) {
    && L.OneToken(lock)
    && forall t :: t in done ==> t in lock.holders && t !in lock.block.queue && !lock.unaware
  }

  /** A task that is stale on the lock is in the channel, active, and stale on nothing else; so is one
      that wants the lock. */
  ghost predicate StaleOk<T>(tasks: map<TaskId, C.Thread<T>>, stale: set<TaskId>, wanting: set<TaskId>) {
    forall t :: t in stale || t in wanting ==>
      t in tasks && tasks[t].place == C.Place.Active && tasks[t].stale == C.Fresh
  }

  ghost predicate Inv<T>(s: State<T>, capacity: nat) {
    C.Inv(s.chan, capacity) && LockOk(s.lock, s.done) && StaleOk(s.chan.tasks, s.stale, s.lock.wanting)
  }

  /** The lock is used as a mutex may be, by tasks that know what they hold. */
  lemma LockIsUsedWell<T>(s: State<T>, step: Step<T>)
    requires LockOk(s.lock, s.done) && Enabled(s, step) && OpOf(step).Some?
    ensures L.MutexLegal(s.lock, OpOf(step).value) && L.Aware(s.lock, OpOf(step).value)
  {
  }

  /** While a task is done it is the only holder, so nobody else takes the lock. */
  lemma DoneIsHolder(lock: L.Mutex, done: set<TaskId>, t: TaskId, u: TaskId)
    requires LockOk(lock, done) && t in done
    ensures lock.block.wakeup == 0 && (u in lock.holders ==> u == t)
  {
    if u in lock.holders {
      L.OneElement(lock.holders, t, u);
    }
    assert |lock.holders - multiset{t}| + 1 == |lock.holders|;
  }

  lemma LockStep<T>(s: State<T>, step: Step<T>)
    requires LockOk(s.lock, s.done) && Enabled(s, step)
    ensures LockOk(Exec(s, step).lock, Exec(s, step).done)
  {
    if OpOf(step).Some? {
      LockIsUsedWell(s, step);
      L.MutexStep(s.lock, OpOf(step).value);
      forall t | t in Exec(s, step).done
        ensures var m := Exec(s, step).lock; t in m.holders && t !in m.block.queue && !m.unaware
      {
        DoneIsHolder(s.lock, s.done, t, if step.Leave? then step.t else t);
      }
    }
  }

  // ---- tasks that are stale on the lock ----

  /** Only a parked task is handed a signal. */
  lemma WokenWasParked<T>(s: C.State<T>, side: C.Side, u: TaskId)
    requires C.Placed(s) && u in s.tasks && s.tasks[u].place == C.Place.Active
    ensures u in C.Wake(s, side).tasks && C.Wake(s, side).tasks[u] == s.tasks[u]
  {
    var q := C.BlockOf(s, side).queue;
    assert q != [] ==> q[0] in q;
  }

  lemma WakeLeavesActive<T>(s: C.State<T>, c: C.Step<T>, u: TaskId)
    requires C.Placed(s) && C.Enabled(s, c) && (c.WakeReader? || c.WakeWriter?)
    requires u in s.tasks && s.tasks[u].place == C.Place.Active
    ensures u in C.Exec(s, c).tasks && C.Exec(s, c).tasks[u].place == C.Place.Active
    ensures C.Exec(s, c).tasks[u].stale == s.tasks[u].stale
  {
    var th := if c.WakeReader? then s.tasks[c.t].(pc := C.Pc.Idle) else C.Started(s, c.t).tasks[c.t];
    C.TakeKeepsPlaced(s, c.t, C.ReadSide, th);
    if c.WakeReader? {
      WokenWasParked(C.WithTask(s, c.t, th), C.ReadSide, u);
    } else {
      WokenWasParked(C.Started(s, c.t), C.WriteSide, u);
    }
  }

  /** A step of the channel leaves an active task active and its state alone, unless it is that task's
      own wait or its yield while stale on the channel. */
  lemma ActiveStays<T>(s: C.State<T>, c: C.Step<T>, u: TaskId)
    requires C.Placed(s) && C.Enabled(s, c) && u in s.tasks
    requires s.tasks[u].place == C.Place.Active && s.tasks[u].stale == C.Fresh
    requires c.Wait? && c.t == u ==> TakeSignal(C.BlockOf(s, C.SideOf(s.tasks[u].pc))).0
    ensures u in C.Exec(s, c).tasks && C.Exec(s, c).tasks[u].place == C.Place.Active
    ensures C.Exec(s, c).tasks[u].stale == C.Fresh
  {
    if c.WakeReader? || c.WakeWriter? {
      WakeLeavesActive(s, c, u);
    }
  }

  lemma ForgetIsFresh<T>(s: C.State<T>, t: TaskId)
    requires C.Enabled(s, C.Step.Forget(t))
    ensures C.Exec(s, C.Step.Forget(t)).tasks == s.tasks[t := s.tasks[t].(stale := C.Fresh)]
  {
  }

  /** Who newly is stale or wants the lock. */
  lemma NewlyStale<T>(s: State<T>, step: Step<T>, u: TaskId)
    requires Enabled(s, step) && (u in Exec(s, step).stale || u in Exec(s, step).lock.wanting)
    ensures u in s.stale || u in s.lock.wanting || (step == Enter(u) && s.lock.block.wakeup == 0)
    ensures step.Chan? && WaitsOnChannel(s, step.step) ==> u != step.step.t
  {
  }

  lemma StaleStep<T>(s: State<T>, step: Step<T>, capacity: nat)
    requires Inv(s, capacity) && Enabled(s, step)
    ensures StaleOk(Exec(s, step).chan.tasks, Exec(s, step).stale, Exec(s, step).lock.wanting)
  {
    var s' := Exec(s, step);
    forall u | u in s'.stale || u in s'.lock.wanting
      ensures u in s'.chan.tasks && s'.chan.tasks[u].place == C.Place.Active && s'.chan.tasks[u].stale == C.Fresh
    {
      NewlyStale(s, step, u);
      if u in s.stale || u in s.lock.wanting {
        if ChanStep(s, step).Some? {
          ChanStepIsEnabled(s, step);
          ActiveStays(s.chan, ChanStep(s, step).value, u);
        }
      } else {
        ForgetIsFresh(s.chan, u);
      }
    }
  }

  lemma StepKeepsInv<T>(s: State<T>, step: Step<T>, capacity: nat)
    requires Inv(s, capacity) && Enabled(s, step)
    ensures Inv(Exec(s, step), capacity)
  {
    LockStep(s, step);
    StaleStep(s, step, capacity);
    if ChanStep(s, step).Some? {
      ChanStepIsEnabled(s, step);
      C.StepKeepsInv(s.chan, ChanStep(s, step).value, capacity);
    }
  }

  /** The plain yield of a task that is stale on the lock goes to the lock, in user code and in a retry
      loop alike; it comes back where a plain yield does. */
  lemma StaleYieldParks<T>(s: State<T>, t: TaskId, capacity: nat)
    requires Inv(s, capacity) && t in s.stale && Outside(s, t) && Yields(s, t)
    ensures Enabled(s, Park(t)) && !Enabled(s, Chan(C.Step.Yield(t)))
    ensures var th := s.chan.tasks[t];
            Exec(s, Park(t)).chan.tasks[t] == th.(pc := if th.pc == C.Pc.RYield then C.Pc.RLoopRead else th.pc)
  {
  }

  // ---- every run ----

  ghost predicate IsRun<T>(run: seq<State<T>>, steps: seq<Step<T>>, capacity: nat) {
    && |run| == |steps| + 1 && run[0] == Init(capacity)
    && forall i :: 0 <= i < |steps| ==> Enabled(run[i], steps[i]) && run[i + 1] == Exec(run[i], steps[i])
  }

  lemma {:induction false} RunKeepsInv<T>(run: seq<State<T>>, steps: seq<Step<T>>, capacity: nat, i: nat)
    requires IsRun(run, steps, capacity) && i < |run|
    ensures Inv(run[i], capacity)
  {
    if i > 0 {
      RunKeepsInv(run, steps, capacity, i - 1);
      StepKeepsInv(run[i - 1], steps[i - 1], capacity);
    } else {
      C.InitInv<T>(capacity);
    }
  }

  /** The steps of the channel proper among the first `i`, and its states from one to the next. */
  ghost function Inside<T>(run: seq<State<T>>, steps: seq<Step<T>>, capacity: nat, i: nat): (seq<C.State<T>>, seq<C.Step<T>>)
    requires IsRun(run, steps, capacity) && i <= |steps|
  {
    if i == 0 then ([run[0].chan], [])
    else
      var (states, csteps) := Inside(run, steps, capacity, i - 1);
      match ChanStep(run[i - 1], steps[i - 1])
      case None => (states, csteps)
      case Some(c) => (states + [run[i].chan], csteps + [c])
  }

  /** With its real lock the channel has no run that it does not have with sections of one step: whatever
      was proved over every run of the channel holds here. */
  lemma {:induction false} LockedRunIsRun<T>(run: seq<State<T>>, steps: seq<Step<T>>, capacity: nat, i: nat)
    requires IsRun(run, steps, capacity) && i <= |steps|
    ensures var (states, csteps) := Inside(run, steps, capacity, i);
            C.IsRun(states, csteps, capacity) && states[|csteps|] == run[i].chan
  {
    if i > 0 {
      LockedRunIsRun(run, steps, capacity, i - 1);
      var c := ChanStep(run[i - 1], steps[i - 1]);
      if c.Some? {
        ChanStepIsEnabled(run[i - 1], steps[i - 1]);
        var (states, csteps) := Inside(run, steps, capacity, i - 1);
        C.Extend(states, csteps, capacity, c.value);
      }
    }
  }

  /** So the values pushed are those the writers passed, in the order of the pushes, and the n-th read
      gets the n-th of them. */
  lemma LockedDelivers<T>(run: seq<State<T>>, steps: seq<Step<T>>, capacity: nat, i: nat)
    requires IsRun(run, steps, capacity) && i < |steps|
    ensures var (states, csteps) := Inside(run, steps, capacity, i); var n := |csteps|;
            && run[i].chan.pushed == D.Written(csteps, n)
            && (steps[i].Section? && steps[i].step.Pop? ==>
                  && D.Pops(csteps, n) < |D.Written(csteps, n)|
                  && run[i + 1].chan.got == run[i].chan.got[steps[i].step.t := D.Written(csteps, n)[D.Pops(csteps, n)]])
  {
    LockedRunIsRun(run, steps, capacity, i);
    var (states, csteps) := Inside(run, steps, capacity, i);
    D.WrittenIsPushed(states, csteps, capacity, |csteps|);
    if steps[i].Section? && steps[i].step.Pop? {
      PopDelivers(run[i], steps[i], states, csteps, capacity);
    }
  }

  lemma PopDelivers<T>(s: State<T>, step: Step<T>, states: seq<C.State<T>>, csteps: seq<C.Step<T>>, capacity: nat)
    requires C.IsRun(states, csteps, capacity) && states[|csteps|] == s.chan
    requires Enabled(s, step) && step.Section? && step.step.Pop?
    ensures D.Pops(csteps, |csteps|) < |D.Written(csteps, |csteps|)|
    ensures Exec(s, step).chan.got == s.chan.got[step.step.t := D.Written(csteps, |csteps|)[D.Pops(csteps, |csteps|)]]
  {
    D.WrittenIsPushed(states, csteps, capacity, |csteps|);
    C.Fifo(states, csteps, capacity, |csteps|);
    D.StepMoves(s.chan, step.step);
  }

  /** What was proved of the channel holds with its real lock: first in, first out, none lost and none
      doubled, no read from an empty queue, and at most one task in the section. */
  lemma LockedFifo<T>(run: seq<State<T>>, steps: seq<Step<T>>, capacity: nat, i: nat, t: TaskId)
    requires IsRun(run, steps, capacity) && i < |run|
    ensures run[i].chan.pushed == run[i].chan.popped + run[i].chan.queue && !run[i].chan.underflow
    ensures Enabled(run[i], Section(C.Pop(t))) ==> run[i].chan.queue != []
    ensures forall u :: Holds(run[i], t) && Holds(run[i], u) ==> t == u
  {
    RunKeepsInv(run, steps, capacity, i);
    if Enabled(run[i], Section(C.Pop(t))) {
      C.PopMeetsItem(run[i].chan, t, capacity);
    }
    forall u | Holds(run[i], t) && Holds(run[i], u) ensures t == u {
      L.OneElement(run[i].lock.holders, t, u);
    }
  }

  /** `AddWaitTask` found the lock free and gave it to the task. */
  predicate Refused<T>(s: State<T>, step: Step<T>, t: TaskId) { step == Park(t) && s.lock.block.wakeup > 0 }

  /** The task is handed the lock, waits for something else, or leaves `sys_block` in another way. */
  predicate Frees<T>(s: State<T>, step: Step<T>, t: TaskId) {
    || step == Forget(t)
    || (step.Leave? && s.lock.block.queue != [] && s.lock.block.queue[0] == t)
    || (step.Chan? && step.step.t == t && WaitsOnChannel(s, step.step))
  }

  /** It was refused and not freed since. */
  ghost predicate RefusedAt<T>(run: seq<State<T>>, steps: seq<Step<T>>, i: nat, t: TaskId, j: nat)
    requires |run| == |steps| + 1 && i <= |steps|
  {
    j < i && Refused(run[j], steps[j], t) && forall k :: j < k < i ==> !Frees(run[k], steps[k], t)
  }

  /** Over every run a task is stale on the lock if and only if it was refused there and not freed since. */
  lemma {:induction false} StaleIsExact<T>(run: seq<State<T>>, steps: seq<Step<T>>, capacity: nat, i: nat, t: TaskId)
    requires IsRun(run, steps, capacity) && i <= |steps|
    ensures t in run[i].stale <==> exists j: nat :: RefusedAt(run, steps, i, t, j)
  {
    if i > 0 {
      StaleIsExact(run, steps, capacity, i - 1, t);
      RunKeepsInv(run, steps, capacity, i - 1);
      StaleMoves(run[i - 1], steps[i - 1], t, capacity);
      if Refused(run[i - 1], steps[i - 1], t) {
        assert RefusedAt(run, steps, i, t, i - 1);
      } else if t in run[i].stale {
        var j: nat :| RefusedAt(run, steps, i - 1, t, j);
        assert RefusedAt(run, steps, i, t, j);
      } else if exists j: nat :: RefusedAt(run, steps, i, t, j) {
        var j: nat :| RefusedAt(run, steps, i, t, j);
        assert RefusedAt(run, steps, i - 1, t, j);
      }
    }
  }

  lemma StaleMoves<T>(s: State<T>, step: Step<T>, t: TaskId, capacity: nat)
    requires Inv(s, capacity) && Enabled(s, step)
    ensures t in Exec(s, step).stale <==> Refused(s, step, t) || (t in s.stale && !Frees(s, step, t))
  {
  }

  // ---- the lock that nobody will unlock ----

  /** The step gives the lock to a task that did not ask for it, or queues its holder on it. */
  predicate Kills<T>(s: State<T>, step: Step<T>) {
    OpOf(step).Some? && (L.Loses(s.lock, OpOf(step).value) || L.Sticks(s.lock, OpOf(step).value))
  }

  lemma GoneAt<T>(run: seq<State<T>>, steps: seq<Step<T>>, capacity: nat, i: nat)
    requires IsRun(run, steps, capacity) && i < |steps|
    ensures L.Gone(run[i + 1].lock) <==> L.Gone(run[i].lock) || Kills(run[i], steps[i])
  {
    RunKeepsInv(run, steps, capacity, i);
    if OpOf(steps[i]).Some? {
      LockIsUsedWell(run[i], steps[i]);
      L.LossStep(run[i].lock, OpOf(steps[i]).value);
    }
  }

  /** Over every run the queue lock is gone if and only if such a step was taken. */
  lemma GoneIsExact<T>(run: seq<State<T>>, steps: seq<Step<T>>, capacity: nat, i: nat)
    requires IsRun(run, steps, capacity) && i < |run|
    ensures L.Gone(run[i].lock) <==> exists j :: 0 <= j < i && Kills(run[j], steps[j])
  {
    var facts := seq(|run|, k requires 0 <= k < |run| => L.Gone(run[k].lock));
    var turns := seq(|steps|, k requires 0 <= k < |steps| && |run| == |steps| + 1 => Kills(run[k], steps[k]));
    forall k | 0 <= k < |turns| ensures facts[k + 1] <==> facts[k] || turns[k] {
      GoneAt(run, steps, capacity, k);
    }
    TurnsTrue(facts, turns, i);
    assert forall j :: 0 <= j < i ==> turns[j] == Kills(run[j], steps[j]);
  }

  ghost predicate SameValues<T>(a: C.State<T>, b: C.State<T>) {
    a.queue == b.queue && a.pushed == b.pushed && a.popped == b.popped
  }

  /** With the lock gone nobody is in the section. */
  lemma GoneStopsSection<T>(s: State<T>, step: Step<T>, capacity: nat)
    requires Inv(s, capacity) && L.Gone(s.lock) && Enabled(s, step)
    ensures !step.Section?
  {
    if step.Section? && !s.lock.unaware {
      var t :| t in s.lock.holders && t in s.lock.block.queue;
      L.OneElement(s.lock.holders, t, step.step.t);
      assert false;
    }
  }

  /** No other step of the channel touches the values. */
  lemma OnlySectionMoves<T>(s: C.State<T>, step: C.Step<T>)
    requires C.Enabled(s, step) && !step.Push? && !step.Pop?
    ensures SameValues(C.Exec(s, step), s)
  {
    if step.WakeReader? || step.WakeWriter? {
      WakeMovesNothing(s, step);
    }
  }

  lemma WakeMovesNothing<T>(s: C.State<T>, step: C.Step<T>)
    requires C.Enabled(s, step) && (step.WakeReader? || step.WakeWriter?)
    ensures SameValues(C.Exec(s, step), s)
  {
  }

  lemma FrozenAt<T>(run: seq<State<T>>, steps: seq<Step<T>>, capacity: nat, i: nat)
    requires IsRun(run, steps, capacity) && i < |steps| && L.Gone(run[i].lock)
    ensures L.Gone(run[i + 1].lock) && SameValues(run[i + 1].chan, run[i].chan)
  {
    RunKeepsInv(run, steps, capacity, i);
    GoneAt(run, steps, capacity, i);
    GoneStopsSection(run[i], steps[i], capacity);
    if ChanStep(run[i], steps[i]).Some? {
      ChanStepIsEnabled(run[i], steps[i]);
      OnlySectionMoves(run[i].chan, ChanStep(run[i], steps[i]).value);
    }
  }

  /** And then no value is ever pushed or popped again. */
  lemma {:induction false} FrozenForever<T>(run: seq<State<T>>, steps: seq<Step<T>>, capacity: nat, i: nat, j: nat)
    requires IsRun(run, steps, capacity) && i <= j < |run| && L.Gone(run[i].lock)
    ensures L.Gone(run[j].lock) && SameValues(run[j].chan, run[i].chan)
  {
    if i < j {
      FrozenForever(run, steps, capacity, i, j - 1);
      FrozenAt(run, steps, capacity, j - 1);
    }
  }

  // ---- a run that ends so ----

  /** Writers 0 and 1 on a channel with room for two. */
  function Told<T>(write: nat, read: nat, pc0: C.Pc<T>, pc1: C.Pc<T>, values: seq<T>,
                   lock: L.Mutex, done: set<TaskId>, stale: set<TaskId>): State<T>
  {
    var th0 := C.Thread(pc0, C.Place.Active, C.Fresh);
    var th1 := C.Thread(pc1, C.Place.Active, C.Fresh);
    State(C.State(Block(write, SIZE_MAX, []), Block(read, SIZE_MAX, []), values, map[0 := th0, 1 := th1],
                  values, [], 0, 0, C.Tally(0, 0), C.Tally(0, 0), false, map[]),
          lock, done, stale)
  }

  /** The lock, free or held by `holders`. */
  function Held(holders: multiset<TaskId>, wanting: set<TaskId>): L.Mutex {
    L.Mutex(Block(if holders == multiset{} then 1 else 0, 1, []), holders, wanting, false)
  }

  lemma Play<T>(run: seq<State<T>>, steps: seq<Step<T>>, capacity: nat, step: Step<T>, to: State<T>)
    returns (run': seq<State<T>>, steps': seq<Step<T>>)
    requires IsRun(run, steps, capacity) && Enabled(run[|steps|], step) && Exec(run[|steps|], step) == to
    ensures IsRun(run', steps', capacity) && run' == run + [to] && run'[|steps'|] == to && steps' == steps + [step]
  {
    run', steps' := run + [to], steps + [step];
  }

  /** A step of the channel that leaves the lock alone. */
  lemma PlayChan<T>(run: seq<State<T>>, steps: seq<Step<T>>, capacity: nat, c: C.Step<T>, to: State<T>)
    returns (run': seq<State<T>>, steps': seq<Step<T>>)
    requires IsRun(run, steps, capacity) && C.Enabled(run[|steps|].chan, c) && Outside(run[|steps|], c.t)
    requires !c.Push? && !c.Pop? && !c.Wait? && !c.Yield?
    requires C.Exec(run[|steps|].chan, c) == to.chan && to == run[|steps|].(chan := to.chan)
    ensures IsRun(run', steps', capacity) && run' == run + [to] && run'[|steps'|] == to && steps' == steps + [Chan(c)]
  {
    run', steps' := Play(run, steps, capacity, Chan(c), to);
  }

  lemma SpawnedIsReachable<T>() returns (run: seq<State<T>>, steps: seq<Step<T>>)
    ensures IsRun(run, steps, 2)
    ensures run[|steps|] == Told(2, 0, C.Idle, C.Idle, [], L.NewMutex(), {}, {})
  {
    var idle: C.Thread<T> := C.Thread(C.Idle, C.Place.Active, C.Fresh);
    run, steps := [Init(2)], [];
    run, steps := PlayChan(run, steps, 2, C.Spawn(0), Init<T>(2).(chan := C.Init<T>(2).(tasks := map[0 := idle])));
    run, steps := PlayChan(run, steps, 2, C.Spawn(1), Told(2, 0, C.Idle, C.Idle, [], L.NewMutex(), {}, {}));
  }

  /** Both have a credit. */
  lemma CreditedIsReachable<T>(v: T) returns (run: seq<State<T>>, steps: seq<Step<T>>)
    ensures IsRun(run, steps, 2)
    ensures run[|steps|] == Told(0, 0, C.WCredit(v), C.WCredit(v), [], L.NewMutex(), {}, {})
  {
    run, steps := SpawnedIsReachable();
    run, steps := PlayChan(run, steps, 2, C.TryPush(0, v), Told(1, 0, C.WCredit(v), C.Idle, [], L.NewMutex(), {}, {}));
    run, steps := PlayChan(run, steps, 2, C.TryPush(1, v),
                       Told(0, 0, C.WCredit(v), C.WCredit(v), [], L.NewMutex(), {}, {}));
  }

  /** Writer 1 has the lock. */
  lemma WriterLocksIsReachable<T>(v: T) returns (run: seq<State<T>>, steps: seq<Step<T>>)
    ensures IsRun(run, steps, 2)
    ensures run[|steps|] == Told(0, 0, C.WCredit(v), C.WCredit(v), [], Held(multiset{1}, {}), {}, {})
  {
    run, steps := CreditedIsReachable(v);
    run, steps := Play(run, steps, 2, Enter(1), Told(0, 0, C.WCredit(v), C.WCredit(v), [], Held(multiset{1}, {}), {}, {}));
  }

  /** It pushes. */
  lemma FirstPushIsReachable<T>(v: T) returns (run: seq<State<T>>, steps: seq<Step<T>>)
    ensures IsRun(run, steps, 2)
    ensures run[|steps|] == Told(0, 0, C.WCredit(v), C.WPushed, [v], Held(multiset{1}, {}), {1}, {})
  {
    run, steps := WriterLocksIsReachable(v);
    run, steps := Play(run, steps, 2, Section(C.Push(1)),
                       Told(0, 0, C.WCredit(v), C.WPushed, [v], Held(multiset{1}, {}), {1}, {}));
  }

  /** Writer 0 wants the lock too. */
  lemma WantedIsReachable<T>(v: T) returns (run: seq<State<T>>, steps: seq<Step<T>>)
    ensures IsRun(run, steps, 2)
    ensures run[|steps|] == Told(0, 0, C.WCredit(v), C.WPushed, [v], Held(multiset{1}, {0}), {1}, {})
  {
    run, steps := FirstPushIsReachable(v);
    run, steps := Play(run, steps, 2, Enter(0), Told(0, 0, C.WCredit(v), C.WPushed, [v], Held(multiset{1}, {0}), {1}, {}));
  }

  /** Writer 1 leaves, so `AddWaitTask` refuses writer 0, which pushes in turn. */
  lemma RefusedIsReachable<T>(v: T) returns (run: seq<State<T>>, steps: seq<Step<T>>)
    ensures IsRun(run, steps, 2)
    ensures run[|steps|] == Told(0, 0, C.WPushed, C.WPushed, [v, v], Held(multiset{0}, {}), {0}, {0})
  {
    assert multiset{1} - multiset{1} == multiset{};
    run, steps := WantedIsReachable(v);
    run, steps := Play(run, steps, 2, Leave(1), Told(0, 0, C.WCredit(v), C.WPushed, [v], Held(multiset{}, {0}), {}, {}));
    run, steps := Play(run, steps, 2, Park(0), Told(0, 0, C.WCredit(v), C.WPushed, [v], Held(multiset{0}, {}), {}, {0}));
    run, steps := Play(run, steps, 2, Section(C.Push(0)),
                       Told(0, 0, C.WPushed, C.WPushed, [v, v], Held(multiset{0}, {}), {0}, {0}));
  }

  /** It ends its push. */
  lemma StaleIdleIsReachable<T>(v: T) returns (run: seq<State<T>>, steps: seq<Step<T>>)
    ensures IsRun(run, steps, 2)
    ensures run[|steps|] == Told(0, 1, C.Idle, C.WPushed, [v, v], L.NewMutex(), {}, {0})
  {
    assert multiset{0} - multiset{0} == multiset{};
    run, steps := RefusedIsReachable(v);
    run, steps := Play(run, steps, 2, Leave(0), Told(0, 0, C.WPushed, C.WPushed, [v, v], L.NewMutex(), {}, {0}));
    run, steps := PlayChan(run, steps, 2, C.WakeReader(0), Told(0, 1, C.Idle, C.WPushed, [v, v], L.NewMutex(), {}, {0}));
  }

  /** It yields plainly: the lock goes to it for nothing, and the channel is frozen with two values in
      it and a reader's signal stored. */
  lemma FrozenIsReachable<T>(v: T) returns (run: seq<State<T>>, steps: seq<Step<T>>)
    ensures IsRun(run, steps, 2) && L.Gone(run[|steps|].lock)
    ensures run[|steps|] == Told(0, 1, C.Idle, C.WPushed, [v, v], L.Mutex(Block(0, 1, []), multiset{0}, {}, true), {}, {0})
  {
    run, steps := StaleIdleIsReachable(v);
    run, steps := Play(run, steps, 2, Park(0),
                       Told(0, 1, C.Idle, C.WPushed, [v, v], L.Mutex(Block(0, 1, []), multiset{0}, {}, true), {}, {0}));
  }

  /** The same with tasks 2 and 3, with 3 or nobody parked as a writer, and one value popped. */
  function Scene<T>(writers: seq<TaskId>, pc0: C.Pc<T>, v: T, th2: C.Thread<T>, th3: C.Thread<T>, started: nat): State<T> {
    var th0 := C.Thread(pc0, C.Place.Active, C.Fresh);
    var th1 := C.Thread(C.WPushed, C.Place.Active, C.Fresh);
    State(C.State(Block(0, SIZE_MAX, writers), Block(0, SIZE_MAX, []), [v], map[0 := th0, 1 := th1, 2 := th2, 3 := th3],
                  [v, v], [v], started, 0, C.Tally(0, 0), C.Tally(0, 0), false, map[0 := v]),
          L.NewMutex(), {}, {0})
  }

  /** Task 0, stale on the lock, in a read. */
  function Reader<T>(pc0: C.Pc<T>, credit: nat, items: nat, v: T): State<T> {
    var s := Told(credit, items, pc0, C.WPushed, [v, v], L.NewMutex(), {}, {0});
    s.(chan := s.chan.(started := credit))
  }

  /** It begins to read with `TryPop`. */
  lemma ReadBeginsIsReachable<T>(v: T) returns (run: seq<State<T>>, steps: seq<Step<T>>)
    ensures IsRun(run, steps, 2)
    ensures run[|steps|] == Reader(C.RBegin(C.Try), 0, 1, v)
  {
    run, steps := StaleIdleIsReachable(v);
    run, steps := PlayChan(run, steps, 2, C.BeginPop(0, C.Try), Reader(C.RBegin(C.Try), 0, 1, v));
  }

  lemma StaleReaderIsReachable<T>(v: T) returns (run: seq<State<T>>, steps: seq<Step<T>>)
    ensures IsRun(run, steps, 2)
    ensures run[|steps|] == Reader(C.RLoopRead, 1, 1, v)
  {
    run, steps := ReadBeginsIsReachable(v);
    run, steps := PlayChan(run, steps, 2, C.WakeWriter(0), Reader(C.RLoopRead, 1, 1, v));
  }

  /** It gets an item signal and the lock, which is free. */
  lemma ReaderLocksIsReachable<T>(v: T) returns (run: seq<State<T>>, steps: seq<Step<T>>)
    ensures IsRun(run, steps, 2)
    ensures run[|steps|] == Reader(C.RItem, 1, 0, v).(lock := Held(multiset{0}, {}))
  {
    run, steps := StaleReaderIsReachable(v);
    run, steps := PlayChan(run, steps, 2, C.LoopRead(0), Reader(C.RItem, 1, 0, v));
    run, steps := Play(run, steps, 2, Enter(0), Reader(C.RItem, 1, 0, v).(lock := Held(multiset{0}, {})));
  }

  function AfterRead<T>(v: T, lock: L.Mutex, done: set<TaskId>): State<T> {
    var s := Reader(C.Idle, 1, 0, v);
    State(s.chan.(queue := [v], popped := [v], got := map[0 := v]), lock, done, {0})
  }

  /** It takes the value and leaves. */
  lemma ValueTakenIsReachable<T>(v: T) returns (run: seq<State<T>>, steps: seq<Step<T>>)
    ensures IsRun(run, steps, 2)
    ensures run[|steps|] == AfterRead(v, Held(multiset{0}, {}), {0})
  {
    run, steps := ReaderLocksIsReachable(v);
    run, steps := Play(run, steps, 2, Section(C.Pop(0)), AfterRead(v, Held(multiset{0}, {}), {0}));
  }

  lemma ValueReadIsReachable<T>(v: T) returns (run: seq<State<T>>, steps: seq<Step<T>>)
    ensures IsRun(run, steps, 2)
    ensures run[|steps|] == AfterRead(v, L.NewMutex(), {})
  {
    assert multiset{0} - multiset{0} == multiset{};
    run, steps := ValueTakenIsReachable(v);
    run, steps := Play(run, steps, 2, Leave(0), AfterRead(v, L.NewMutex(), {}));
  }

  /** Tasks 2 and 3 come. */
  lemma TwoMoreIsReachable<T>(v: T) returns (run: seq<State<T>>, steps: seq<Step<T>>)
    ensures IsRun(run, steps, 2)
    ensures var idle: C.Thread<T> := C.Thread(C.Idle, C.Place.Active, C.Fresh);
            run[|steps|] == Credited(Scene([], C.Idle, v, idle, idle, 1))
  {
    var idle: C.Thread<T> := C.Thread(C.Idle, C.Place.Active, C.Fresh);
    run, steps := ValueReadIsReachable(v);
    var s := AfterRead(v, L.NewMutex(), {});
    run, steps := PlayChan(run, steps, 2, C.Spawn(2), s.(chan := s.chan.(tasks := s.chan.tasks[2 := idle])));
    run, steps := PlayChan(run, steps, 2, C.Spawn(3), Credited(Scene([], C.Idle, v, idle, idle, 1)));
  }

  /** With one credit stored. */
  function Credited<T>(s: State<T>): State<T> { s.(chan := s.chan.(write := s.chan.write.(wakeup := 1))) }

  /** Task 2 takes the only credit, and task 3 wants to write. */
  lemma CreditTakenIsReachable<T>(v: T) returns (run: seq<State<T>>, steps: seq<Step<T>>)
    ensures IsRun(run, steps, 2)
    ensures run[|steps|] == Scene([], C.Idle, v, C.Thread(C.WCredit(v), C.Place.Active, C.Fresh),
                                  C.Thread(C.WWait(v), C.Place.Active, C.Fresh), 1)
  {
    var idle: C.Thread<T> := C.Thread(C.Idle, C.Place.Active, C.Fresh);
    var two := idle.(pc := C.WCredit(v));
    run, steps := TwoMoreIsReachable(v);
    run, steps := PlayChan(run, steps, 2, C.TryPush(2, v), Scene([], C.Idle, v, two, idle, 1));
    run, steps := PlayChan(run, steps, 2, C.BeginPush(3, v), Scene([], C.Idle, v, two, idle.(pc := C.WWait(v)), 1));
  }

  /** It parks. */
  lemma WriterParkedIsReachable<T>(v: T) returns (run: seq<State<T>>, steps: seq<Step<T>>)
    ensures IsRun(run, steps, 2)
    ensures run[|steps|] == Scene([3], C.Idle, v, C.Thread(C.WCredit(v), C.Place.Active, C.Fresh),
                                  C.Thread(C.WWait(v), C.Place.Parked(C.WriteSide), C.Fresh), 1)
  {
    var two: C.Thread<T> := C.Thread(C.WCredit(v), C.Place.Active, C.Fresh);
    var w: C.Thread<T> := C.Thread(C.WWait(v), C.Place.Active, C.Fresh);
    run, steps := CreditTakenIsReachable(v);
    run, steps := Play(run, steps, 2, Chan(C.Step.Wait(3)), Scene([], C.Idle, v, two, w.(place := C.Yielded(C.WriteSide)), 1));
    run, steps := Play(run, steps, 2, Chan(C.Step.Park(3)), Scene([3], C.Idle, v, two, w.(place := C.Place.Parked(C.WriteSide)), 1));
  }

  /** Task 0 reads again: its credit goes to task 3, and it finds neither item nor credit. */
  lemma SecondReadIsReachable<T>(v: T) returns (run: seq<State<T>>, steps: seq<Step<T>>)
    ensures IsRun(run, steps, 2)
    ensures run[|steps|] == Scene([3], C.RBegin(C.Try), v, C.Thread(C.WCredit(v), C.Place.Active, C.Fresh),
                                  C.Thread(C.WWait(v), C.Place.Parked(C.WriteSide), C.Fresh), 1)
  {
    var two: C.Thread<T> := C.Thread(C.WCredit(v), C.Place.Active, C.Fresh);
    var w: C.Thread<T> := C.Thread(C.WWait(v), C.Place.Parked(C.WriteSide), C.Fresh);
    run, steps := WriterParkedIsReachable(v);
    run, steps := PlayChan(run, steps, 2, C.BeginPop(0, C.Try), Scene([3], C.RBegin(C.Try), v, two, w, 1));
  }

  lemma RetryIsReachable<T>(v: T) returns (run: seq<State<T>>, steps: seq<Step<T>>)
    ensures IsRun(run, steps, 2)
    ensures run[|steps|] == Scene([], C.RLoopRead, v, C.Thread(C.WCredit(v), C.Place.Active, C.Fresh),
                                  C.Thread(C.WCredit(v), C.Place.Active, C.Fresh), 2)
  {
    var two: C.Thread<T> := C.Thread(C.WCredit(v), C.Place.Active, C.Fresh);
    run, steps := SecondReadIsReachable(v);
    run, steps := PlayChan(run, steps, 2, C.WakeWriter(0), Scene([], C.RLoopRead, v, two, two, 2));
  }

  lemma NoItemIsReachable<T>(v: T) returns (run: seq<State<T>>, steps: seq<Step<T>>)
    ensures IsRun(run, steps, 2)
    ensures run[|steps|] == Scene([], C.RLoopWrite, v, C.Thread(C.WCredit(v), C.Place.Active, C.Fresh),
                                  C.Thread(C.WCredit(v), C.Place.Active, C.Fresh), 2)
  {
    var two: C.Thread<T> := C.Thread(C.WCredit(v), C.Place.Active, C.Fresh);
    run, steps := RetryIsReachable(v);
    run, steps := PlayChan(run, steps, 2, C.LoopRead(0), Scene([], C.RLoopWrite, v, two, two, 2));
  }

  lemma RetryYieldsIsReachable<T>(v: T) returns (run: seq<State<T>>, steps: seq<Step<T>>)
    ensures IsRun(run, steps, 2)
    ensures run[|steps|] == Scene([], C.RYield, v, C.Thread(C.WCredit(v), C.Place.Active, C.Fresh),
                                  C.Thread(C.WCredit(v), C.Place.Active, C.Fresh), 2)
  {
    var two: C.Thread<T> := C.Thread(C.WCredit(v), C.Place.Active, C.Fresh);
    run, steps := NoItemIsReachable(v);
    run, steps := PlayChan(run, steps, 2, C.LoopWrite(0), Scene([], C.RYield, v, two, two, 2));
  }

  /** So it yields in its retry loop and takes the free lock for nothing: the channel is frozen too, with
      a value in it, and tasks 2 and 3 about to push. */
  lemma FrozenByRetryIsReachable<T>(v: T) returns (run: seq<State<T>>, steps: seq<Step<T>>)
    ensures IsRun(run, steps, 2) && L.Gone(run[|steps|].lock)
    ensures run[|steps|] == Scene([], C.RLoopRead, v, C.Thread(C.WCredit(v), C.Place.Active, C.Fresh),
                                  C.Thread(C.WCredit(v), C.Place.Active, C.Fresh), 2)
                            .(lock := L.Mutex(Block(0, 1, []), multiset{0}, {}, true))
  {
    var two: C.Thread<T> := C.Thread(C.WCredit(v), C.Place.Active, C.Fresh);
    run, steps := RetryYieldsIsReachable(v);
    run, steps := Play(run, steps, 2, Park(0),
                       Scene([], C.RLoopRead, v, two, two, 2).(lock := L.Mutex(Block(0, 1, []), multiset{0}, {}, true)));
  }
}
