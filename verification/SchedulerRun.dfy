/** What the scheduler does with its lists in order and in time: lists are queues, signals are kept, the
    count comes down, and every task can get to run. */
module SchedulerRuns {
  import opened Commons
  import opened BlockObjects
  import opened Schedulers
  import Q = Ledgers

  // ---- lists are queues ----

  /** Whoever stays in a list keeps those behind it behind it, and newcomers come behind all. */
  ghost predicate InOrder(l: seq<TaskId>, l': seq<TaskId>) {
    forall t, u :: t in l && t in l' && u in l' && t != u && (u in l ==> Q.Ahead(l, t, u)) ==> Q.Ahead(l', t, u)
  }

  lemma RemovedInOrder(l: seq<TaskId>, x: TaskId)
    requires NoDup(l)
    ensures InOrder(l, Without(l, x))
  {
    forall t, u | t in l && t in Without(l, x) && u in Without(l, x) && t != u && (u in l ==> Q.Ahead(l, t, u))
      ensures Q.Ahead(Without(l, x), t, u)
    {
      Q.WithoutKeepsOrder(l, x, t, u);
    }
  }

  lemma AppendedInOrder(l: seq<TaskId>, m: seq<TaskId>)
    requires forall t :: t in l ==> t !in m
    ensures InOrder(l, l + m)
  {
    forall t, u | t in l && u in l + m && t != u && (u in l ==> Q.Ahead(l, t, u)) ensures Q.Ahead(l + m, t, u) {
      if u in l {
        var i, j :| 0 <= i < j < |l| && l[i] == t && l[j] == u;
        assert (l + m)[i] == t && (l + m)[j] == u;
      } else {
        var i :| 0 <= i < |l| && l[i] == t;
        var j :| 0 <= j < |m| && m[j] == u;
        assert (l + m)[i] == t && (l + m)[|l| + j] == u;
      }
    }
  }

  lemma FrontInOrder(l: seq<TaskId>, k: nat)
    requires NoDup(l) && k <= |l|
    ensures InOrder(l, l[..k]) && InOrder([], l[k..])
    ensures forall t, u :: t in l[..k] && u in l[k..] ==> Q.Ahead(l, t, u)
  {
    forall t, u | t in l[..k] && u in l[..k] && t != u && Q.Ahead(l, t, u) ensures Q.Ahead(l[..k], t, u) {
      var i, j :| 0 <= i < j < |l| && l[i] == t && l[j] == u;
      var m :| 0 <= m < k && l[..k][m] == u;
      assert l[m] == u && m == j;
      assert l[..k][i] == t && l[..k][j] == u;
    }
    forall t, u | t in l[..k] && u in l[k..] ensures Q.Ahead(l, t, u) {
      var i :| 0 <= i < k && l[..k][i] == t;
      var j :| 0 <= j < |l| - k && l[k..][j] == u;
      assert l[i] == t && l[k + j] == u;
    }
  }

  lemma SameInOrder(l: seq<TaskId>)
    requires NoDup(l)
    ensures InOrder(l, l)
  {
    forall t, u | t in l && u in l && t != u && Q.Ahead(l, t, u) ensures Q.Ahead(l, t, u) {
    }
  }

  /** One step takes tasks out of a list, or puts tasks behind it. */
  ghost predicate Queued(l: seq<TaskId>, l': seq<TaskId>) {
    && NoDup(l)
    && (|| l' == l
        || (exists x :: l' == Without(l, x))
        || (exists m: seq<TaskId> :: l' == l + m && forall t :: t in l ==> t !in m)
        || (exists k: nat :: k <= |l| && l' == l[..k]))
  }

  lemma QueuedInOrder(l: seq<TaskId>, l': seq<TaskId>)
    requires Queued(l, l')
    ensures InOrder(l, l')
  {
    if l' == l {
      SameInOrder(l);
    } else if exists x :: l' == Without(l, x) {
      var x :| l' == Without(l, x);
      RemovedInOrder(l, x);
    } else if exists m: seq<TaskId> :: l' == l + m && forall t :: t in l ==> t !in m {
      var m: seq<TaskId> :| l' == l + m && forall t :: t in l ==> t !in m;
      AppendedInOrder(l, m);
    } else {
      var k: nat :| k <= |l| && l' == l[..k];
      FrontInOrder(l, k);
    }
  }

  lemma MoveQueued(s: State, at: map<TaskId, Place>, t: TaskId, from: Place, to: Place, pl: Place)
    requires Placed(s.lists, at) && t in at && at[t] == from && from != to
    ensures Queued(L(s.lists, pl), L(Move(s, t, from, to).lists, pl))
  {
    var l, l' := L(s.lists, pl), L(Move(s, t, from, to).lists, pl);
    assert NoDup(l);
    if pl == from {
      assert l' == Without(l, t);
    } else if pl == to {
      assert t !in l;
      assert l' == l + [t];
    }
  }

  lemma StealPushQueued(s: State, at: map<TaskId, Place>, w: WorkerId, p: ProcId, pl: Place)
    requires Placed(s.lists, at)
    ensures Queued(L(s.lists, pl), L(Spliced(s, w, p).lists, pl))
  {
    var l, l', loot := L(s.lists, pl), L(Spliced(s, w, p).lists, pl), L(s.lists, Loot(w));
    assert NoDup(l);
    if pl == Run(p) {
      forall u | u in l ensures u !in loot {
        InPlace(s.lists, at, pl, u);
        assert at[u] != Loot(w);
      }
      assert l' == l + loot;
    } else if pl == Loot(w) {
      assert l' == l[..0];
    }
  }

  lemma StealPopQueued(s: State, at: map<TaskId, Place>, p: ProcId, w: WorkerId, n: nat, pl: Place)
    requires Placed(s.lists, at) && L(s.lists, Loot(w)) == [] && L(s.lists, Run(p)) != []
    ensures Queued(L(s.lists, pl), L(Looted(s, p, w, n).lists, pl))
  {
    var l, l', run := L(s.lists, pl), L(Looted(s, p, w, n).lists, pl), L(s.lists, Run(p));
    assert NoDup(l);
    var k := |run| - Taken(n, |run|);
    if pl == Run(p) {
      assert l' == l[..k];
    } else if pl == Loot(w) {
      assert l' == l + run[k..];
    }
  }

  lemma NewQueued(s: State, at: map<TaskId, Place>, t: TaskId, w: WorkerId, pl: Place)
    requires Inv(s, at) && Enabled(s, New(t, w))
    ensures Queued(L(s.lists, pl), L(Created(s, t, w).lists, pl))
  {
    var l, l' := L(s.lists, pl), L(Created(s, t, w).lists, pl);
    assert NoDup(l);
    if pl == Hand(w) {
      assert l == [] && l' == l + [t];
    }
  }

  lemma DoneQueued(s: State, at: map<TaskId, Place>, p: ProcId, pl: Place)
    requires Placed(s.lists, at) && L(s.lists, Current(p)) != []
    ensures Queued(L(s.lists, pl), L(Finished(s, p).lists, pl))
  {
    var l, l' := L(s.lists, pl), L(Finished(s, p).lists, pl);
    assert NoDup(l);
    if pl == Current(p) {
      assert l' == Without(l, Head(s, Current(p)));
    }
  }

  lemma TripQueued(s: State, at: map<TaskId, Place>, step: Step, pl: Place)
    requires Inv(s, at) && Enabled(s, step) && TripOf(s, step).Goes?
    ensures Queued(L(s.lists, pl), L(Exec(s, step).lists, pl))
  {
    var g := TripOf(s, step);
    TripStarts(s, at, step);
    ExecGoes(s, step);
    MoveQueued(s, at, g.t, g.from, g.to, pl);
  }

  lemma StepQueued(s: State, at: map<TaskId, Place>, step: Step, pl: Place)
    requires Inv(s, at) && Enabled(s, step)
    ensures Queued(L(s.lists, pl), L(Exec(s, step).lists, pl))
  {
    if step.SleepFire? {
      SleepFireGoes(s, at, step.tm, step.w);
    }
    if TripOf(s, step).Goes? {
      TripQueued(s, at, step, pl);
    } else {
      RestQueued(s, at, step, pl);
    }
  }

  lemma RestQueued(s: State, at: map<TaskId, Place>, step: Step, pl: Place)
    requires Inv(s, at) && Enabled(s, step) && TripOf(s, step).Stays? && !step.SleepFire?
    ensures Queued(L(s.lists, pl), L(Exec(s, step).lists, pl))
  {
    if step.StealPop? {
      StealPopQueued(s, at, step.p, step.w, step.n, pl);
    } else if step.StealPush? {
      StealPushQueued(s, at, step.w, step.p, pl);
    } else if step.New? {
      NewQueued(s, at, step.t, step.w, pl);
    } else if step.Done? {
      DoneQueued(s, at, step.p, pl);
    } else {
      StaysLists(s, step);
      assert NoDup(L(s.lists, pl));
    }
  }

  /** A sleeper is always found. */
  lemma SleepFireGoes(s: State, at: map<TaskId, Place>, tm: TimerId, w: WorkerId)
    requires Inv(s, at) && Enabled(s, SleepFire(tm, w))
    ensures TripOf(s, SleepFire(tm, w)).Goes?
  {
    SleeperFound(s, at, tm);
  }

  lemma StaysLists(s: State, step: Step)
    requires Enabled(s, step) && TripOf(s, step).Stays?
    requires !step.StealPop? && !step.StealPush? && !step.New? && !step.Done? && !step.SleepFire?
    ensures Exec(s, step).lists == s.lists
  {
    match step
    case Wake(_, _, _) =>
    case Cancel(_, _, _) =>
    case Subtract(_) =>
    case Arm(_, _) =>
  }

  /** Every list of the scheduler is a queue: over every run, whoever stays in a list is never overtaken
      there. */
  lemma ListsAreQueues(states: seq<State>, steps: seq<Step>, n: nat, pl: Place)
    requires IsRun(states, steps) && n < |steps|
    ensures InOrder(L(states[n].lists, pl), L(states[n + 1].lists, pl))
  {
    var at := RunKeepsInv(states, steps, n);
    StepQueued(states[n], at, steps[n], pl);
    QueuedInOrder(L(states[n].lists, pl), L(states[n + 1].lists, pl));
  }

  /** A thief takes from behind: whoever stays was ahead of all that it takes. */
  lemma ThiefTakesTheBack(states: seq<State>, steps: seq<Step>, n: nat, t: TaskId, u: TaskId)
    requires IsRun(states, steps) && n < |steps| && steps[n].StealPop?
    requires t in L(states[n + 1].lists, Run(steps[n].p)) && u in L(states[n + 1].lists, Loot(steps[n].w))
    ensures Q.Ahead(L(states[n].lists, Run(steps[n].p)), t, u)
  {
    var at := RunKeepsInv(states, steps, n);
    var l := L(states[n].lists, Run(steps[n].p));
    assert NoDup(l);
    FrontInOrder(l, |l| - Taken(steps[n].n, |l|));
  }

  // ---- signals and the count ----

  /** What a step does to the signals stored for a block object. */
  function Change(s: State, step: Step, b: BlockId): int
    requires Enabled(s, step)
  {
    match step
    case Park(_, c) => if c == b && Signals(s, b) > 0 then -1 else 0
    case Wake(c, _, full) => if c == b && L(s.lists, BlockQ(b)) == [] && !full then 1 else 0
    case _ => 0
  }

  ghost function Stored(states: seq<State>, steps: seq<Step>, b: BlockId, n: nat): int
    requires IsRun(states, steps) && n <= |steps|
  {
    if n == 0 then 0 else Stored(states, steps, b, n - 1) + Change(states[n - 1], steps[n - 1], b)
  }

  /** Over every run the signals stored are those of wake-ups that found nobody, less those that a task
      about to park has found. */
  lemma {:induction false} SignalsConserved(states: seq<State>, steps: seq<Step>, b: BlockId, n: nat)
    requires IsRun(states, steps) && n <= |steps|
    ensures Signals(states[n], b) == Stored(states, steps, b, n)
  {
    if n > 0 {
      SignalsConserved(states, steps, b, n - 1);
      SignalsStep(states[n - 1], steps[n - 1], b);
    }
  }

  lemma SignalsStep(s: State, step: Step, b: BlockId)
    requires Enabled(s, step)
    ensures Signals(Exec(s, step), b) == Signals(s, b) + Change(s, step, b)
  {
    match step
    case Park(p, c) => ParkSignals(s, p, c, b);
    case Wake(c, w, full) => WakeSignals(s, c, w, full, b);
    case Cancel(_, _, _) =>
    case SleepPush(_) =>
    case SleepFire(_, _) =>
    case _ => SameSignals(s, step);
  }

  lemma ParkSignals(s: State, p: ProcId, c: BlockId, b: BlockId)
    requires Enabled(s, Park(p, c))
    ensures Signals(Exec(s, Park(p, c)), b) == Signals(s, b) + Change(s, Park(p, c), b)
  {
  }

  lemma WakeSignals(s: State, c: BlockId, w: WorkerId, full: bool, b: BlockId)
    requires Enabled(s, Wake(c, w, full))
    ensures Signals(Exec(s, Wake(c, w, full)), b) == Signals(s, b) + Change(s, Wake(c, w, full), b)
  {
  }

  lemma SameSignals(s: State, step: Step)
    requires Enabled(s, step) && !step.Park? && !step.Wake? && !step.Cancel? && !step.SleepPush? && !step.SleepFire?
    ensures Exec(s, step).signals == s.signals
  {
    match step
    case Deliver(w, p) =>
    case Pick(p) =>
    case Requeue(p) =>
    case IoPush(p) =>
    case IoErase(t, w) =>
    case _ =>
  }

  /** When a processer has subtracted its done tasks, the count is the live tasks and what the others have
      still to subtract. */
  lemma SubtractSettles(states: seq<State>, steps: seq<Step>, n: nat, p: ProcId)
    requires IsRun(states, steps) && n < |steps| && steps[n] == Subtract(p)
    ensures DoneBy(states[n + 1].doneCount, p) == 0
    ensures states[n + 1].taskCount == |states[n].live| + |Others(states[n].finished, p)|
  {
    CountIsExact(states, steps, n + 1);
  }

  // ---- every task can get to run ----

  ghost predicate Leads(s: State, steps: seq<Step>, end: State)
    decreases |steps|
  {
    if steps == [] then s == end else Enabled(s, steps[0]) && Leads(Exec(s, steps[0]), steps[1..], end)
  }

  /** Some steps lead from the one state to the other. */
  ghost predicate CanReach(s: State, end: State) { exists steps: seq<Step> :: Leads(s, steps, end) }

  lemma Here(s: State)
    ensures CanReach(s, s)
  {
    assert Leads(s, [], s);
  }

  lemma StepThen(s: State, step: Step, end: State)
    requires Enabled(s, step) && CanReach(Exec(s, step), end)
    ensures CanReach(s, end)
  {
    var steps: seq<Step> :| Leads(Exec(s, step), steps, end);
    assert ([step] + steps)[1..] == steps;
    assert Leads(s, [step] + steps, end);
  }

  lemma {:induction false} LeadsThen(s: State, steps: seq<Step>, mid: State, end: State)
    requires Leads(s, steps, mid) && CanReach(mid, end)
    ensures CanReach(s, end)
    decreases |steps|
  {
    if steps != [] {
      LeadsThen(Exec(s, steps[0]), steps[1..], mid, end);
      StepThen(s, steps[0], end);
    }
  }

  lemma ReachThen(s: State, mid: State, end: State)
    requires CanReach(s, mid) && CanReach(mid, end)
    ensures CanReach(s, end)
  {
    var steps: seq<Step> :| Leads(s, steps, mid);
    LeadsThen(s, steps, mid, end);
  }

  /** A step that moves one task. */
  lemma Trips(s: State, at: map<TaskId, Place>, step: Step, g: Trip)
    requires Inv(s, at) && Enabled(s, step) && TripOf(s, step) == g && g.Goes?
    ensures Inv(Exec(s, step), at[g.t := g.to]) && CanReach(s, Exec(s, step))
    ensures Exec(s, step).lists == Move(s, g.t, g.from, g.to).lists && g.t in at && at[g.t] == g.from && g.from != g.to
  {
    GoesKeeps(s, at, step);
    TripStarts(s, at, step);
    ExecGoes(s, step);
    Here(Exec(s, step));
    StepThen(s, step, Exec(s, step));
  }

  lemma {:induction false} Bound(ws: set<nat>) returns (w: nat)
    ensures forall x :: x in ws ==> x < w
    decreases ws
  {
    w := 0;
    if ws != {} {
      var x :| x in ws;
      var v := Bound(ws - {x});
      w := if x < v then v else x + 1;
      assert forall y :: y in ws ==> y == x || y in ws - {x};
    }
  }

  /** A worker with empty hands, and a timer that is not in use. */
  lemma FreeWorker(s: State) returns (w: WorkerId)
    ensures L(s.lists, Hand(w)) == []
  {
    var ws := set pl | pl in s.lists.Keys && pl.Hand? :: pl.w;
    w := Bound(ws);
    forall pl | pl in s.lists ensures pl != Hand(w) {
      assert pl.Hand? ==> pl.w in ws;
    }
  }

  lemma FreeTimer(s: State) returns (tm: TimerId)
    ensures tm !in s.timers
  {
    tm := Bound(s.timers.Keys);
  }

  /** Somebody holds the task and hands it to a processer. */
  lemma FromHand(s: State, at: map<TaskId, Place>, t: TaskId, w: WorkerId, p: ProcId)
    returns (end: State, at': map<TaskId, Place>)
    requires Inv(s, at) && t in at && at[t] == Hand(w)
    ensures CanReach(s, end) && Inv(end, at') && at' == at[t := Run(p)]
    ensures forall pl :: pl != Hand(w) && pl != Run(p) ==> L(end.lists, pl) == L(s.lists, pl)
  {
    OnlyOne(s, at, t, Hand(w));
    Trips(s, at, Deliver(w, p), Goes(t, Hand(w), Run(p)));
    end, at' := Exec(s, Deliver(w, p)), at[t := Run(p)];
  }

  lemma OnlyOne(s: State, at: map<TaskId, Place>, t: TaskId, pl: Place)
    requires Inv(s, at) && t in at && at[t] == pl && (pl.Hand? || pl.Current?)
    ensures L(s.lists, pl) == [t]
  {
  }

  /** Those who wait on a block object are woken in turn. */
  lemma {:induction false} FromBlock(s: State, at: map<TaskId, Place>, t: TaskId, b: BlockId, p: ProcId)
    returns (end: State, at': map<TaskId, Place>)
    requires Inv(s, at) && t in at && at[t] == BlockQ(b)
    ensures CanReach(s, end) && Inv(end, at') && t in at' && at'[t] == Run(p)
    decreases |L(s.lists, BlockQ(b))|
  {
    var l := L(s.lists, BlockQ(b));
    var w := FreeWorker(s);
    var u := l[0];
    Trips(s, at, Wake(b, w, false), Goes(u, BlockQ(b), Hand(w)));
    var s1, at1 := Exec(s, Wake(b, w, false)), at[u := Hand(w)];
    var s2, at2 := FromHand(s1, at1, u, w, p);
    ReachThen(s, s1, s2);
    if u == t {
      end, at' := s2, at2;
    } else {
      HeadLeft(l);
      end, at' := FromBlock(s2, at2, t, b, p);
      ReachThen(s, s2, end);
    }
  }

  lemma HeadLeft(l: seq<TaskId>)
    requires l != []
    ensures Without(l, l[0]) == l[1..]
  {
  }

  /** A sleeper's timer is set if it is not, and fires. */
  lemma FromSleep(s: State, at: map<TaskId, Place>, t: TaskId, p: ProcId) returns (end: State, at': map<TaskId, Place>)
    requires Inv(s, at) && t in at && at[t] == Sleep
    ensures CanReach(s, end) && Inv(end, at') && t in at' && at'[t] == Run(p)
  {
    var s1 := s;
    Here(s);
    assert t in s.arming.Values + s.timers.Values;
    if t !in s.timers.Values {
      var q :| q in s.arming && s.arming[q] == t;
      var tm := FreeTimer(s);
      ArmKeeps(s, at, q, tm);
      s1 := Exec(s, Arm(q, tm));
      Here(s1);
      StepThen(s, Arm(q, tm), s1);
      assert s1.timers[tm] == t;
    }
    var tm :| tm in s1.timers && s1.timers[tm] == t;
    end, at' := TimerFires(s1, at, t, tm, p);
    ReachThen(s, s1, end);
  }

  lemma TimerFires(s: State, at: map<TaskId, Place>, t: TaskId, tm: TimerId, p: ProcId)
    returns (end: State, at': map<TaskId, Place>)
    requires Inv(s, at) && tm in s.timers && s.timers[tm] == t
    ensures CanReach(s, end) && Inv(end, at') && t in at' && at'[t] == Run(p)
  {
    var w := FreeWorker(s);
    SleeperFound(s, at, tm);
    Trips(s, at, SleepFire(tm, w), Goes(t, Sleep, Hand(w)));
    var s1 := Exec(s, SleepFire(tm, w));
    end, at' := FromHand(s1, at[t := Hand(w)], t, w, p);
    ReachThen(s, s1, end);
  }

  lemma FromIo(s: State, at: map<TaskId, Place>, t: TaskId, p: ProcId) returns (end: State, at': map<TaskId, Place>)
    requires Inv(s, at) && t in at && at[t] == Io
    ensures CanReach(s, end) && Inv(end, at') && t in at' && at'[t] == Run(p)
  {
    var w := FreeWorker(s);
    Trips(s, at, IoErase(t, w), Goes(t, Io, Hand(w)));
    var s1 := Exec(s, IoErase(t, w));
    end, at' := FromHand(s1, at[t := Hand(w)], t, w, p);
    ReachThen(s, s1, end);
  }

  lemma FromLoot(s: State, at: map<TaskId, Place>, t: TaskId, w: WorkerId, p: ProcId)
    returns (end: State, at': map<TaskId, Place>)
    requires Inv(s, at) && t in at && at[t] == Loot(w)
    ensures CanReach(s, end) && Inv(end, at') && t in at' && at'[t] == Run(p)
  {
    end := Exec(s, StealPush(w, p));
    at' := SplicedKeeps(s, at, w, p);
    assert t in L(end.lists, Run(p));
    InPlace(end.lists, at', Run(p), t);
    Here(end);
    StepThen(s, StealPush(w, p), end);
  }

  /** From wherever it is, a task gets into a run list. */
  lemma GetsQueued(s: State, at: map<TaskId, Place>, t: TaskId, p: ProcId) returns (end: State, at': map<TaskId, Place>, q: ProcId)
    requires Inv(s, at) && t in at && !at[t].Current?
    ensures CanReach(s, end) && Inv(end, at') && t in at' && at'[t] == Run(q)
  {
    q := p;
    match at[t]
    case Run(home) =>
      end, at', q := s, at, home;
      Here(s);
    case BlockQ(b) => end, at' := FromBlock(s, at, t, b, p);
    case Sleep => end, at' := FromSleep(s, at, t, p);
    case Io => end, at' := FromIo(s, at, t, p);
    case Hand(w) => end, at' := FromHand(s, at, t, w, p);
    case Loot(w) => end, at' := FromLoot(s, at, t, w, p);
  }

  /** The processer has put its current task back and set its timer. */
  predicate Ready(s: State, p: ProcId) { L(s.lists, Current(p)) == [] && p !in s.arming }

  lemma GetsReady(s: State, at: map<TaskId, Place>, t: TaskId, p: ProcId) returns (end: State, at': map<TaskId, Place>)
    requires Inv(s, at) && t in at && at[t] == Run(p)
    ensures CanReach(s, end) && Inv(end, at') && t in at' && at'[t] == Run(p) && Ready(end, p)
  {
    var s1 := s;
    Here(s);
    if p in s.arming {
      var tm := FreeTimer(s);
      ArmKeeps(s, at, p, tm);
      s1 := Exec(s, Arm(p, tm));
      Here(s1);
      StepThen(s, Arm(p, tm), s1);
    }
    end, at' := PutBack(s1, at, t, p);
    ReachThen(s, s1, end);
  }

  lemma PutBack(s: State, at: map<TaskId, Place>, t: TaskId, p: ProcId) returns (end: State, at': map<TaskId, Place>)
    requires Inv(s, at) && t in at && at[t] == Run(p) && p !in s.arming
    ensures CanReach(s, end) && Inv(end, at') && t in at' && at'[t] == Run(p) && Ready(end, p)
  {
    end, at' := s, at;
    Here(s);
    if L(s.lists, Current(p)) != [] {
      var u := Head(s, Current(p));
      InPlace(s.lists, at, Current(p), u);
      OnlyOne(s, at, u, Current(p));
      Trips(s, at, Requeue(p), Goes(u, Current(p), Run(p)));
      end, at' := Exec(s, Requeue(p)), at[u := Run(p)];
      ExecGoes(s, Requeue(p));
      assert L(end.lists, Current(p)) == [];
    }
  }

  /** The first in the list runs and goes to the back. */
  lemma OneRound(s: State, at: map<TaskId, Place>, p: ProcId) returns (end: State, at': map<TaskId, Place>)
    requires Inv(s, at) && Ready(s, p) && L(s.lists, Run(p)) != []
    ensures CanReach(s, end) && Inv(end, at') && Ready(end, p)
    ensures var l := L(s.lists, Run(p)); L(end.lists, Run(p)) == l[1..] + [l[0]]
  {
    var s1, at1 := PicksFirst(s, at, p);
    end, at' := GoesRound(s1, at1, L(s.lists, Run(p))[0], p);
    ReachThen(s, s1, end);
  }

  /** So do all those ahead of a task, one after the other. */
  lemma {:induction false} GetsPicked(s: State, at: map<TaskId, Place>, t: TaskId, p: ProcId, k: nat)
    returns (end: State, at': map<TaskId, Place>)
    requires Inv(s, at) && Ready(s, p) && k < |L(s.lists, Run(p))| && L(s.lists, Run(p))[k] == t
    ensures CanReach(s, end) && Inv(end, at') && L(end.lists, Current(p)) == [t]
    decreases k
  {
    if k == 0 {
      end, at' := PicksFirst(s, at, p);
    } else {
      var s1, at1 := OneRound(s, at, p);
      Turned(L(s.lists, Run(p)), k);
      end, at' := GetsPicked(s1, at1, t, p, k - 1);
      ReachThen(s, s1, end);
    }
  }

  lemma Turned(l: seq<TaskId>, k: nat)
    requires 0 < k < |l|
    ensures (l[1..] + [l[0]])[k - 1] == l[k] && |l[1..] + [l[0]]| == |l|
  {
  }

  lemma PicksFirst(s: State, at: map<TaskId, Place>, p: ProcId) returns (end: State, at': map<TaskId, Place>)
    requires Inv(s, at) && Ready(s, p) && L(s.lists, Run(p)) != []
    ensures CanReach(s, end) && Inv(end, at') && p !in end.arming
    ensures L(end.lists, Current(p)) == [L(s.lists, Run(p))[0]] && L(end.lists, Run(p)) == L(s.lists, Run(p))[1..]
  {
    var u := L(s.lists, Run(p))[0];
    Trips(s, at, Pick(p), Goes(u, Run(p), Current(p)));
    ExecGoes(s, Pick(p));
    end, at' := Exec(s, Pick(p)), at[u := Current(p)];
    MoveLists(s, u, Run(p), Current(p));
    HeadLeft(L(s.lists, Run(p)));
    assert [] + [u] == [u];
  }

  lemma MoveLists(s: State, t: TaskId, from: Place, to: Place)
    requires from != to
    ensures var lists := Move(s, t, from, to).lists;
            L(lists, from) == Without(L(s.lists, from), t) && L(lists, to) == L(s.lists, to) + [t]
  {
  }

  lemma GoesRound(s: State, at: map<TaskId, Place>, u: TaskId, p: ProcId) returns (end: State, at': map<TaskId, Place>)
    requires Inv(s, at) && L(s.lists, Current(p)) == [u] && p !in s.arming
    ensures CanReach(s, end) && Inv(end, at') && Ready(end, p) && L(end.lists, Run(p)) == L(s.lists, Run(p)) + [u]
  {
    Trips(s, at, Requeue(p), Goes(u, Current(p), Run(p)));
    ExecGoes(s, Requeue(p));
    end, at' := Exec(s, Requeue(p)), at[u := Run(p)];
    MoveLists(s, u, Current(p), Run(p));
    HeadLeft([u]);
  }

  /** No task is ever stranded: from every reachable state, and for every live task, there are steps that
      make it a current task. */
  lemma CanRun(states: seq<State>, steps: seq<Step>, n: nat, t: TaskId) returns (end: State, p: ProcId)
    requires IsRun(states, steps) && n < |states| && t in states[n].live
    ensures CanReach(states[n], end) && L(end.lists, Current(p)) == [t]
  {
    var at := RunKeepsInv(states, steps, n);
    if at[t].Current? {
      end, p := states[n], at[t].p;
      OnlyOne(end, at, t, at[t]);
      Here(end);
    } else {
      end, p := Runs(states[n], at, t);
    }
  }

  lemma Runs(s: State, at: map<TaskId, Place>, t: TaskId) returns (end: State, p: ProcId)
    requires Inv(s, at) && t in at && !at[t].Current?
    ensures CanReach(s, end) && L(end.lists, Current(p)) == [t]
  {
    var s1, at1, q := GetsQueued(s, at, t, 0);
    var s2, at2 := GetsReady(s1, at1, t, q);
    var l := L(s2.lists, Run(q));
    assert t in l;
    var k :| 0 <= k < |l| && l[k] == t;
    var at3;
    end, at3 := GetsPicked(s2, at2, t, q, k);
    p := q;
    ReachThen(s, s1, s2);
    ReachThen(s, s2, end);
  }
}
