/** The ABBA protocol between a task that parks on an io sentry (push the sentry, then look whether it
    was triggered) and those who trigger it (mark it triggered, then erase it), for any number of
    tasks, sentries and triggers from epoll, timers or close. */
module IoWaits {
  import opened Commons

  type TriggerId = nat

  /** The parking side of a sentry, which runs on after the task may already run elsewhere. */
  datatype Park = Fresh | Pushed | Erasing | Settled

  /** `queued` is membership in the wait list; `winner` is the trigger whose exchange succeeded and
      `wakes` counts how often the task was made runnable. */
  datatype Sentry = Sentry(task: TaskId, queued: bool, park: Park, winner: Option<TriggerId>, wakes: nat)

  datatype Stage = Exchange | Erase | Over

  datatype Trigger = Trigger(sentry: SentryId, stage: Stage)

  /** `Polling` is a task inside `poll` that has made its sentry known; `Switching` has yielded. */
  datatype Place = Running | Polling(s: SentryId) | Switching(s: SentryId) | Parked(s: SentryId)

  datatype State = State(tasks: map<TaskId, Place>, sentries: map<SentryId, Sentry>, triggers: map<TriggerId, Trigger>)

  datatype Step =
    | Spawn(t: TaskId)
    | Poll(t: TaskId, s: SentryId)
    | GiveUp(t: TaskId)
    | Yield(t: TaskId)
    | Push(t: TaskId)
    | Look(s: SentryId)
    | ParkErase(s: SentryId)
    | NewTrigger(k: TriggerId, s: SentryId)
    | TryExchange(k: TriggerId)
    | TriggerErase(k: TriggerId)

  function Init(): State { State(map[], map[], map[]) }

  predicate Triggered(x: Sentry) { x.winner.Some? }

  predicate Enabled(st: State, step: Step) {
    match step
    case Spawn(t) => t !in st.tasks
    case Poll(t, s) => t in st.tasks && st.tasks[t].Running? && s !in st.sentries
    case GiveUp(t) => t in st.tasks && st.tasks[t].Polling?
    case Yield(t) => t in st.tasks && st.tasks[t].Polling?
    case Push(t) => t in st.tasks && st.tasks[t].Switching? && st.tasks[t].s in st.sentries
    case Look(s) => s in st.sentries && st.sentries[s].park.Pushed?
    case ParkErase(s) => s in st.sentries && st.sentries[s].park.Erasing?
    case NewTrigger(k, s) => k !in st.triggers && s in st.sentries
    case TryExchange(k) => k in st.triggers && st.triggers[k].stage.Exchange? && st.triggers[k].sentry in st.sentries
    case TriggerErase(k) => k in st.triggers && st.triggers[k].stage.Erase? && st.triggers[k].sentry in st.sentries
  }

  function SetSentry(st: State, s: SentryId, x: Sentry): State { st.(sentries := st.sentries[s := x]) }

  /** `__IOBlockTriggered`: whoever takes the sentry out of the wait list makes its task runnable. */
  function EraseSentry(st: State, s: SentryId): State
    requires s in st.sentries
  {
    var x := st.sentries[s];
    if x.queued then
      SetSentry(st, s, x.(queued := false, wakes := x.wakes + 1)).(tasks := st.tasks[x.task := Running])
    else st
  }

  function Exec(st: State, step: Step): State
    requires Enabled(st, step)
  {
    match step
    case Spawn(t) => st.(tasks := st.tasks[t := Running])
    case Poll(t, s) => SetSentry(st, s, Sentry(t, false, Fresh, None, 0)).(tasks := st.tasks[t := Polling(s)])
    case GiveUp(t) => st.(tasks := st.tasks[t := Running])
    case Yield(t) => st.(tasks := st.tasks[t := Switching(st.tasks[t].s)])
    case Push(t) =>
      var s := st.tasks[t].s;
      SetSentry(st, s, st.sentries[s].(queued := true, park := Pushed)).(tasks := st.tasks[t := Parked(s)])
    case Look(s) =>
      var x := st.sentries[s];
      SetSentry(st, s, x.(park := if Triggered(x) then Erasing else Settled))
    case ParkErase(s) =>
      var st' := EraseSentry(st, s);
      SetSentry(st', s, st'.sentries[s].(park := Settled))
    case NewTrigger(k, s) => st.(triggers := st.triggers[k := Trigger(s, Exchange)])
    case TryExchange(k) =>
      var s := st.triggers[k].sentry;
      var x := st.sentries[s];
      if Triggered(x) then st.(triggers := st.triggers[k := Trigger(s, Over)])
      else SetSentry(st, s, x.(winner := Some(k))).(triggers := st.triggers[k := Trigger(s, Erase)])
    case TriggerErase(k) =>
      var s := st.triggers[k].sentry;
      EraseSentry(st, s).(triggers := st.triggers[k := Trigger(s, Over)])
  }

  // ---- what every step keeps ----

  /** Somebody is still going to erase the sentry: the parking side, or the trigger that won. */
  predicate Attended(st: State, s: SentryId)
    requires s in st.sentries
  {
    var x := st.sentries[s];
    x.park.Pushed? || x.park.Erasing?
    || (x.winner.Some? && x.winner.value in st.triggers && st.triggers[x.winner.value] == Trigger(s, Erase))
  }

  predicate SentryOk(st: State, s: SentryId)
    requires s in st.sentries
  {
    var x := st.sentries[s];
    && (if x.queued then 1 else 0) + x.wakes == (if x.park.Fresh? then 0 else 1)
    && (x.queued ==> x.task in st.tasks && st.tasks[x.task] == Parked(s))
    && (!Triggered(x) ==> x.wakes == 0 && !x.park.Erasing?)
    && (Triggered(x) && x.queued ==> Attended(st, s))
  }

  predicate TriggerOk(st: State, k: TriggerId)
    requires k in st.triggers
  {
    var y := st.triggers[k];
    && y.sentry in st.sentries
    && (y.stage.Erase? ==> st.sentries[y.sentry].winner == Some(k))
    && (y.stage.Exchange? ==> st.sentries[y.sentry].winner != Some(k))
  }

  predicate TaskOk(st: State, t: TaskId)
    requires t in st.tasks
  {
    match st.tasks[t]
    case Running => true
    case Parked(s) => s in st.sentries && st.sentries[s].task == t && st.sentries[s].queued
    case p => p.s in st.sentries && st.sentries[p.s].task == t && st.sentries[p.s].park.Fresh?
  }

  predicate Inv(st: State) {
    && (forall s :: s in st.sentries ==> SentryOk(st, s))
    && (forall k :: k in st.triggers ==> TriggerOk(st, k))
    && (forall t :: t in st.tasks ==> TaskOk(st, t))
    && (forall s :: s in st.sentries && st.sentries[s].winner.Some? ==>
          st.sentries[s].winner.value in st.triggers && st.triggers[st.sentries[s].winner.value].sentry == s)
  }

  lemma EraseKeeps(st: State, s: SentryId)
    requires Inv(st) && s in st.sentries && Triggered(st.sentries[s])
    ensures Inv(EraseSentry(st, s)) && !EraseSentry(st, s).sentries[s].queued
  {
  }

  lemma TaskStepKeeps(st: State, step: Step)
    requires Inv(st) && Enabled(st, step) && (step.Spawn? || step.GiveUp? || step.Yield?)
    ensures Inv(Exec(st, step))
  {
  }

  lemma PollKeeps(st: State, t: TaskId, s: SentryId)
    requires Inv(st) && Enabled(st, Poll(t, s))
    ensures Inv(Exec(st, Poll(t, s)))
  {
  }

  lemma PushKeeps(st: State, t: TaskId)
    requires Inv(st) && Enabled(st, Push(t))
    ensures Inv(Exec(st, Push(t)))
  {
  }

  lemma LookKeeps(st: State, s: SentryId)
    requires Inv(st) && Enabled(st, Look(s))
    ensures Inv(Exec(st, Look(s)))
  {
  }

  lemma ParkEraseKeeps(st: State, s: SentryId)
    requires Inv(st) && Enabled(st, ParkErase(s))
    ensures Inv(Exec(st, ParkErase(s)))
  {
    EraseKeeps(st, s);
    SettleKeeps(EraseSentry(st, s), s);
  }

  lemma SettleKeeps(st: State, s: SentryId)
    requires Inv(st) && s in st.sentries && !st.sentries[s].queued && !st.sentries[s].park.Fresh?
    ensures Inv(SetSentry(st, s, st.sentries[s].(park := Settled)))
  {
  }

  /** The sentries after the exchange. */
  lemma ExchangeKeepsSentries(st: State, k: TriggerId, q: SentryId)
    requires Inv(st) && Enabled(st, TryExchange(k)) && q in Exec(st, TryExchange(k)).sentries
    ensures SentryOk(Exec(st, TryExchange(k)), q)
  {
    assert SentryOk(st, q);
    assert q != st.triggers[k].sentry && st.sentries[q].winner.Some? ==> st.sentries[q].winner.value != k;
  }

  lemma ExchangeKeeps(st: State, k: TriggerId)
    requires Inv(st) && Enabled(st, TryExchange(k))
    ensures Inv(Exec(st, TryExchange(k)))
  {
    var st' := Exec(st, TryExchange(k));
    forall q | q in st'.sentries ensures SentryOk(st', q) {
      ExchangeKeepsSentries(st, k, q);
    }
    forall j | j in st'.triggers ensures TriggerOk(st', j) {
      assert TriggerOk(st, j);
    }
    forall t | t in st'.tasks ensures TaskOk(st', t) {
      assert TaskOk(st, t);
    }
  }

  lemma TriggerEraseKeeps(st: State, k: TriggerId)
    requires Inv(st) && Enabled(st, TriggerErase(k))
    ensures Inv(Exec(st, TriggerErase(k)))
  {
    EraseKeeps(st, st.triggers[k].sentry);
  }

  lemma NewTriggerKeeps(st: State, k: TriggerId, s: SentryId)
    requires Inv(st) && Enabled(st, NewTrigger(k, s))
    ensures Inv(Exec(st, NewTrigger(k, s)))
  {
  }

  lemma StepKeepsInv(st: State, step: Step)
    requires Inv(st) && Enabled(st, step)
    ensures Inv(Exec(st, step))
  {
    match step
    case Poll(t, s) => PollKeeps(st, t, s);
    case Push(t) => PushKeeps(st, t);
    case Look(s) => LookKeeps(st, s);
    case ParkErase(s) => ParkEraseKeeps(st, s);
    case NewTrigger(k, s) => NewTriggerKeeps(st, k, s);
    case TryExchange(k) => ExchangeKeeps(st, k);
    case TriggerErase(k) => TriggerEraseKeeps(st, k);
    case _ => TaskStepKeeps(st, step);
  }

  ghost predicate IsRun(states: seq<State>, steps: seq<Step>) {
    && |states| == |steps| + 1 && states[0] == Init()
    && forall i :: 0 <= i < |steps| ==> Enabled(states[i], steps[i]) && states[i + 1] == Exec(states[i], steps[i])
  }

  lemma {:induction false} RunKeepsInv(states: seq<State>, steps: seq<Step>, n: nat)
    requires IsRun(states, steps) && n < |states|
    ensures Inv(states[n])
  {
    if n > 0 {
      RunKeepsInv(states, steps, n - 1);
      StepKeepsInv(states[n - 1], steps[n - 1]);
    }
  }

  // ---- over every run ----

  /** A task is made runnable at most once for each park, and only when it has parked and been
      triggered. */
  lemma WokenAtMostOnce(states: seq<State>, steps: seq<Step>, n: nat, s: SentryId)
    requires IsRun(states, steps) && n < |states| && s in states[n].sentries
    ensures var x := states[n].sentries[s];
            x.wakes <= 1 && (x.wakes == 1 ==> !x.queued && !x.park.Fresh? && Triggered(x))
  {
    RunKeepsInv(states, steps, n);
    assert SentryOk(states[n], s);
  }

  /** Once a parked sentry has been triggered and nobody is still at work on it, its task has been
      woken exactly once and waits on it no more. */
  lemma NeverLost(states: seq<State>, steps: seq<Step>, n: nat, s: SentryId)
    requires IsRun(states, steps) && n < |states| && s in states[n].sentries
    requires var x := states[n].sentries[s]; Triggered(x) && !x.park.Fresh? && !Attended(states[n], s)
    ensures states[n].sentries[s].wakes == 1 && !states[n].sentries[s].queued
    ensures forall t :: t in states[n].tasks ==> states[n].tasks[t] != Parked(s)
  {
    RunKeepsInv(states, steps, n);
    assert SentryOk(states[n], s);
    forall t | t in states[n].tasks ensures states[n].tasks[t] != Parked(s) {
      assert TaskOk(states[n], t);
    }
  }

  /** The steps that those already at work on a triggered sentry have left to take. */
  function Remaining(st: State, s: SentryId): seq<Step>
    requires s in st.sentries && Triggered(st.sentries[s])
  {
    var x := st.sentries[s];
    if x.park.Pushed? then [Look(s), ParkErase(s)]
    else if x.park.Erasing? then [ParkErase(s)]
    else [TriggerErase(x.winner.value)]
  }

  ghost predicate Leads(st: State, steps: seq<Step>, end: State)
    decreases |steps|
  {
    if steps == [] then st == end else Enabled(st, steps[0]) && Leads(Exec(st, steps[0]), steps[1..], end)
  }

  /** A triggered sentry whose task still waits is woken by those already at work on it, whatever
      else happens or does not happen: no further trigger is needed. */
  lemma AlwaysRescued(st: State, s: SentryId) returns (end: State)
    requires Inv(st) && s in st.sentries && Triggered(st.sentries[s]) && st.sentries[s].queued
    ensures Leads(st, Remaining(st, s), end)
    ensures s in end.sentries && end.sentries[s].wakes == 1 && !end.sentries[s].queued
    ensures st.sentries[s].task in end.tasks && end.tasks[st.sentries[s].task] == Running
  {
    assert SentryOk(st, s);
    var steps := Remaining(st, s);
    var middle := Exec(st, steps[0]);
    if |steps| == 1 {
      end := middle;
      assert steps[1..] == [];
      assert Leads(middle, [], end);
    } else {
      end := Exec(middle, steps[1]);
      assert steps[1..] == [ParkErase(s)] && steps[1..][1..] == [];
      assert Leads(end, [], end);
      assert Leads(middle, steps[1..], end);
    }
  }

  /** Whoever wakes finds the task parked on this very sentry: a stale trigger never touches a task
      that runs, or that has moved on to another wait. */
  lemma WakeFindsParked(states: seq<State>, steps: seq<Step>, n: nat, t: TaskId)
    requires IsRun(states, steps) && n < |steps| && (steps[n].ParkErase? || steps[n].TriggerErase?)
    requires t in states[n].tasks && t in states[n + 1].tasks && states[n + 1].tasks[t] != states[n].tasks[t]
    ensures var s := if steps[n].ParkErase? then steps[n].s else states[n].triggers[steps[n].k].sentry;
            && states[n].tasks[t] == Parked(s) && states[n + 1].tasks[t] == Running
            && states[n + 1].sentries[s].wakes == states[n].sentries[s].wakes + 1
  {
    RunKeepsInv(states, steps, n);
    var s := if steps[n].ParkErase? then steps[n].s else states[n].triggers[steps[n].k].sentry;
    assert SentryOk(states[n], s);
  }

  // ---- a wait from its beginning ----

  /** The steps of one poll that has to wait: it parks on its sentry unless that is triggered meanwhile. */
  lemma PollParks(st: State, t: TaskId, s: SentryId) returns (end: State)
    requires Enabled(st, Poll(t, s))
    ensures Leads(st, [Poll(t, s), Yield(t), Push(t), Look(s)], end)
    ensures t in end.tasks && end.tasks[t] == Parked(s)
    ensures s in end.sentries && end.sentries[s] == Sentry(t, true, Settled, None, 0)
    ensures Exec(Exec(st, Poll(t, s)), GiveUp(t)).tasks[t] == Running
  {
    var a, b := Exec(st, Poll(t, s)), Exec(Exec(st, Poll(t, s)), Yield(t));
    var c := Exec(b, Push(t));
    end := Exec(c, Look(s));
    assert [Poll(t, s), Yield(t), Push(t), Look(s)][1..] == [Yield(t), Push(t), Look(s)];
    assert [Yield(t), Push(t), Look(s)][1..] == [Push(t), Look(s)] && [Push(t), Look(s)][1..] == [Look(s)];
    assert Leads(end, [], end);
    assert Leads(c, [Look(s)], end);
    assert Leads(b, [Push(t), Look(s)], end);
    assert Leads(a, [Yield(t), Push(t), Look(s)], end);
  }

  /** A trigger of a parked sentry that nobody has triggered yet wakes its task. */
  lemma TriggerWakes(st: State, k: TriggerId, s: SentryId) returns (end: State)
    requires Inv(st) && Enabled(st, NewTrigger(k, s)) && st.sentries[s].queued && !Triggered(st.sentries[s])
    ensures Leads(st, [NewTrigger(k, s), TryExchange(k), TriggerErase(k)], end)
    ensures s in end.sentries && Triggered(end.sentries[s]) && end.sentries[s].wakes == 1 && !end.sentries[s].queued
    ensures st.sentries[s].task in end.tasks && end.tasks[st.sentries[s].task] == Running
  {
    assert SentryOk(st, s);
    var a := Exec(st, NewTrigger(k, s));
    var b := Exec(a, TryExchange(k));
    end := Exec(b, TriggerErase(k));
    assert [NewTrigger(k, s), TryExchange(k), TriggerErase(k)][1..] == [TryExchange(k), TriggerErase(k)];
    assert [TryExchange(k), TriggerErase(k)][1..] == [TriggerErase(k)];
    assert Leads(end, [], end);
    assert Leads(b, [TriggerErase(k)], end);
    assert Leads(a, [TryExchange(k), TriggerErase(k)], end);
  }

  /** One that comes before the task has parked leaves it attended, so that the parking side wakes it. */
  lemma EarlyTriggerWakes(st: State, k: TriggerId, s: SentryId, t: TaskId) returns (end: State)
    requires Inv(st) && Enabled(st, NewTrigger(k, s)) && !Triggered(st.sentries[s])
    requires t in st.tasks && st.tasks[t] == Switching(s)
    ensures Leads(Exec(Early(st, k, s), Push(t)), [Look(s), ParkErase(s)], end)
    ensures s in end.sentries && end.sentries[s].wakes == 1 && !end.sentries[s].queued && t in end.tasks && end.tasks[t] == Running
  {
    assert TaskOk(st, t) && SentryOk(st, s);
    EarlyKeeps(st, k, s);
    var b := Early(st, k, s);
    StepKeepsInv(b, Push(t));
    end := AlwaysRescued(Exec(b, Push(t)), s);
  }

  /** The trigger's three steps, which find nothing to erase. */
  function Early(st: State, k: TriggerId, s: SentryId): (r: State)
    requires Enabled(st, NewTrigger(k, s)) && !Triggered(st.sentries[s]) && !st.sentries[s].queued
    ensures r.tasks == st.tasks && s in r.sentries && r.sentries[s] == st.sentries[s].(winner := Some(k))
  {
    Exec(Exec(Exec(st, NewTrigger(k, s)), TryExchange(k)), TriggerErase(k))
  }

  lemma EarlyKeeps(st: State, k: TriggerId, s: SentryId)
    requires Inv(st) && Enabled(st, NewTrigger(k, s)) && !Triggered(st.sentries[s]) && !st.sentries[s].queued
    ensures Inv(Early(st, k, s))
  {
    var a := Exec(st, NewTrigger(k, s));
    StepKeepsInv(st, NewTrigger(k, s));
    StepKeepsInv(a, TryExchange(k));
    StepKeepsInv(Exec(a, TryExchange(k)), TriggerErase(k));
  }
}
