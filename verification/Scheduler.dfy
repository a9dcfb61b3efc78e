/** Where tasks are. Run lists, current tasks, block queues, the sleep list, io waits and the hands of
    those who move tasks about, under any interleaving of processers, wakers, timers and thieves. A
    step is one section under one lock. */
module Schedulers {
  import opened Commons
  import opened BlockObjects
  import opened Counting

  type ProcId = nat
  type WorkerId = nat

  /** `Hand` is a task that a waker or creator has yet to add to a run list; `Loot` is a stolen piece
      of a run list on its way to another. */
  datatype Place =
    | Run(p: ProcId)
    | Current(p: ProcId)
    | BlockQ(b: BlockId)
    | Sleep
    | Io
    | Hand(w: WorkerId)
    | Loot(w: WorkerId)

  /** The hook's `check_`: the list that the task's only link pair belongs to. All run lists share one
      tag. */
  datatype Tag = NoTag | RunTag | BlockTag(b: BlockId) | SleepTag

  type Lists = map<Place, seq<TaskId>>

  /** `arming` are processers between pushing a sleeper and setting its timer; `finished` says which
      processer has counted a done task that `taskCount` still includes. */
  datatype State = State(
    lists: Lists, check: map<TaskId, Tag>, signals: map<BlockId, nat>,
    arming: map<ProcId, TaskId>, timers: map<TimerId, TaskId>,
    live: set<TaskId>, taskCount: int, doneCount: map<ProcId, nat>, finished: map<TaskId, ProcId>,
    assertFailed: bool)

  function Init(): State { State(map[], map[], map[], map[], map[], {}, 0, map[], map[], false) }

  function L(lists: Lists, pl: Place): seq<TaskId> { if pl in lists then lists[pl] else [] }

  function Add(lists: Lists, pl: Place, t: TaskId): Lists { lists[pl := L(lists, pl) + [t]] }

  function Remove(lists: Lists, pl: Place, t: TaskId): Lists { lists[pl := Without(L(lists, pl), t)] }

  /** The links of a task are used by intrusive lists only. */
  function TagOf(pl: Place): Tag {
    match pl
    case Run(_) => RunTag
    case Loot(_) => RunTag
    case BlockQ(b) => BlockTag(b)
    case Sleep => SleepTag
    case _ => NoTag
  }

  datatype Step =
    | New(t: TaskId, w: WorkerId)
    | Deliver(w: WorkerId, p: ProcId)
    | Pick(p: ProcId)
    | Requeue(p: ProcId)
    | Park(p: ProcId, b: BlockId)
    | Wake(b: BlockId, w: WorkerId, full: bool)
    | Cancel(b: BlockId, t: TaskId, w: WorkerId)
    | SleepPush(p: ProcId)
    | Arm(p: ProcId, tm: TimerId)
    | SleepFire(tm: TimerId, w: WorkerId)
    | IoPush(p: ProcId)
    | IoErase(t: TaskId, w: WorkerId)
    | Done(p: ProcId)
    | Subtract(p: ProcId)
    | StealPop(p: ProcId, w: WorkerId, n: nat)
    | StealPush(w: WorkerId, p: ProcId)

  function Head(s: State, pl: Place): TaskId
    requires L(s.lists, pl) != []
  {
    L(s.lists, pl)[0]
  }

  /** What the program tests, and that the thread concerned is free to take the step. */
  predicate Enabled(s: State, step: Step) {
    match step
    case New(t, w) => t !in s.check && L(s.lists, Hand(w)) == []
    case Deliver(w, p) => L(s.lists, Hand(w)) != []
    case Pick(p) => L(s.lists, Current(p)) == [] && p !in s.arming && L(s.lists, Run(p)) != []
    case Requeue(p) => L(s.lists, Current(p)) != []
    case Park(p, b) => L(s.lists, Current(p)) != []
    case Wake(b, w, _) => L(s.lists, Hand(w)) == []
    case Cancel(b, t, w) => t in s.check && L(s.lists, Hand(w)) == []
    case SleepPush(p) => L(s.lists, Current(p)) != [] && p !in s.arming
    case Arm(p, tm) => p in s.arming && tm !in s.timers
    case SleepFire(tm, w) => tm in s.timers && L(s.lists, Hand(w)) == []
    case IoPush(p) => L(s.lists, Current(p)) != []
    case IoErase(t, w) => t in L(s.lists, Io) && L(s.lists, Hand(w)) == []
    case Done(p) => L(s.lists, Current(p)) != []
    case Subtract(p) => true
    case StealPop(p, w, _) => L(s.lists, Loot(w)) == [] && L(s.lists, Run(p)) != []
    case StealPush(w, p) => L(s.lists, Loot(w)) != []
  }

  /** A task leaves one place for another; lists set and clear the tag. */
  function Move(s: State, t: TaskId, from: Place, to: Place): State {
    s.(lists := Add(Remove(s.lists, from, t), to, t), check := s.check[t := TagOf(to)])
  }

  function Signals(s: State, b: BlockId): nat { if b in s.signals then s.signals[b] else 0 }

  function DoneBy(doneCount: map<ProcId, nat>, p: ProcId): nat { if p in doneCount then doneCount[p] else 0 }

  function Created(s: State, t: TaskId, w: WorkerId): State {
    s.(lists := Add(s.lists, Hand(w), t), check := s.check[t := NoTag], live := s.live + {t}, taskCount := s.taskCount + 1)
  }

  function Finished(s: State, p: ProcId): State
    requires L(s.lists, Current(p)) != []
  {
    var t := Head(s, Current(p));
    s.(lists := Remove(s.lists, Current(p), t), live := s.live - {t},
       doneCount := s.doneCount[p := DoneBy(s.doneCount, p) + 1], finished := s.finished[t := p])
  }

  /** The finished tasks that other processers counted. */
  function Others(finished: map<TaskId, ProcId>, p: ProcId): map<TaskId, ProcId> {
    map t | t in finished && finished[t] != p :: finished[t]
  }

  function Subtracted(s: State, p: ProcId): State {
    s.(taskCount := s.taskCount - DoneBy(s.doneCount, p), doneCount := s.doneCount[p := 0],
       finished := Others(s.finished, p))
  }

  function Armed(s: State, p: ProcId, tm: TimerId): State
    requires p in s.arming
  {
    s.(arming := s.arming - {p}, timers := s.timers[tm := s.arming[p]])
  }

  /** `n` is half of the size that the thief read before, in a section of its own. */
  function Looted(s: State, p: ProcId, w: WorkerId, n: nat): State {
    var l := L(s.lists, Run(p));
    var k := |l| - Taken(n, |l|);
    s.(lists := s.lists[Run(p) := l[..k]][Loot(w) := l[k..]])
  }

  function Spliced(s: State, w: WorkerId, p: ProcId): State {
    s.(lists := s.lists[Run(p) := L(s.lists, Run(p)) + L(s.lists, Loot(w))][Loot(w) := []])
  }

  function Exec(s: State, step: Step): State
    requires Enabled(s, step)
  {
    match step
    case New(t, w) => Created(s, t, w)
    case Deliver(w, p) => Move(s, Head(s, Hand(w)), Hand(w), Run(p))
    case Pick(p) => Move(s, Head(s, Run(p)), Run(p), Current(p))
    case Requeue(p) => Move(s, Head(s, Current(p)), Current(p), Run(p))
    case Park(p, b) =>
      if Signals(s, b) > 0 then
        Move(s, Head(s, Current(p)), Current(p), Run(p)).(signals := s.signals[b := Signals(s, b) - 1])
      else Move(s, Head(s, Current(p)), Current(p), BlockQ(b))
    case Wake(b, w, full) =>
      if L(s.lists, BlockQ(b)) != [] then Move(s, Head(s, BlockQ(b)), BlockQ(b), Hand(w))
      else if full then s
      else s.(signals := s.signals[b := Signals(s, b) + 1])
    case Cancel(b, t, w) =>
      if s.check[t] == BlockTag(b) then Move(s, t, BlockQ(b), Hand(w)) else s
    case SleepPush(p) =>
      var t := Head(s, Current(p));
      Move(s, t, Current(p), Sleep).(arming := s.arming[p := t])
    case Arm(p, tm) => Armed(s, p, tm)
    case SleepFire(tm, w) =>
      var t := s.timers[tm];
      var s' := s.(timers := s.timers - {tm});
      if t in s.check && s.check[t] == SleepTag then Move(s', t, Sleep, Hand(w)) else s'.(assertFailed := true)
    case IoPush(p) => Move(s, Head(s, Current(p)), Current(p), Io)
    case IoErase(t, w) => Move(s, t, Io, Hand(w))
    case Done(p) => Finished(s, p)
    case Subtract(p) => Subtracted(s, p)
    case StealPop(p, w, n) => Looted(s, p, w, n)
    case StealPush(w, p) => Spliced(s, w, p)
  }

  // ---- each task in one place ----

  predicate Distinct(lists: Lists) {
    forall pl :: pl in lists ==> NoDup(lists[pl])
  }

  /** The lists hold exactly the tasks of `at`, each once, in the list of its place. */
  predicate Placed(lists: Lists, at: map<TaskId, Place>) {
    && Distinct(lists)
    && (forall pl, t :: pl in lists && t in lists[pl] ==> t in at && at[t] == pl)
    && (forall t :: t in at ==> at[t] in lists && t in lists[at[t]])
  }

  lemma RemoveKeeps(lists: Lists, at: map<TaskId, Place>, t: TaskId)
    requires Placed(lists, at) && t in at
    ensures Placed(Remove(lists, at[t], t), at - {t})
  {
  }

  lemma AddKeeps(lists: Lists, at: map<TaskId, Place>, pl: Place, t: TaskId)
    requires Placed(lists, at) && t !in at
    ensures Placed(Add(lists, pl, t), at[t := pl])
  {
    var l := L(lists, pl);
    assert t !in l;
    assert forall i :: 0 <= i < |l| ==> l[i] in l;
  }

  lemma MoveKeeps(s: State, at: map<TaskId, Place>, t: TaskId, to: Place)
    requires Placed(s.lists, at) && t in at
    ensures Placed(Move(s, t, at[t], to).lists, at[t := to])
  {
    RemoveKeeps(s.lists, at, t);
    AddKeeps(Remove(s.lists, at[t], t), at - {t}, to, t);
    assert (at - {t})[t := to] == at[t := to];
  }

  lemma StealPopKeeps(lists: Lists, at: map<TaskId, Place>, from: Place, to: Place, k: nat)
    requires Placed(lists, at) && from != to && L(lists, to) == [] && k <= |L(lists, from)|
    ensures var l := L(lists, from);
            Placed(lists[from := l[..k]][to := l[k..]], Relocated(at, l[k..], to))
  {
    var l := L(lists, from);
    var lists' := lists[from := l[..k]][to := l[k..]];
    var at' := Relocated(at, l[k..], to);
    assert NoDup(l);
    Apart(l, k);
    forall pl, t | pl in lists' && t in lists'[pl] ensures t in at' && at'[t] == pl {
      if pl == from || pl == to { assert t in l; }
    }
    forall t | t in at' ensures at'[t] in lists' && t in lists'[at'[t]] {
      assert at[t] == from ==> t in l[..k] || t in l[k..];
    }
  }

  lemma StealPushKeeps(lists: Lists, at: map<TaskId, Place>, from: Place, to: Place)
    requires Placed(lists, at) && from != to
    ensures var l := L(lists, from);
            Placed(lists[to := L(lists, to) + l][from := []], Relocated(at, l, to))
  {
    var l, m := L(lists, from), L(lists, to);
    var lists' := lists[to := m + l][from := []];
    var at' := Relocated(at, l, to);
    assert NoDup(l) && NoDup(m);
    forall t | t in m ensures t !in l {
      InPlace(lists, at, to, t);
      if t in l {
        InPlace(lists, at, from, t);
        assert false;
      }
    }
    NoDupTogether(m, l);
    forall pl, t | pl in lists' && t in lists'[pl] ensures t in at' && at'[t] == pl {
      assert pl == to ==> t in m || t in l;
    }
  }

  lemma NoDupTogether(l: seq<TaskId>, m: seq<TaskId>)
    requires NoDup(l) && NoDup(m) && forall t :: t in l ==> t !in m
    ensures NoDup(l + m)
  {
    forall i, j | 0 <= i < j < |l + m| ensures (l + m)[i] != (l + m)[j] {
      if i < |l| <= j {
        assert l[i] in l && m[j - |l|] in m;
      }
    }
  }

  lemma Apart(l: seq<TaskId>, k: nat)
    requires NoDup(l) && k <= |l|
    ensures NoDup(l[..k]) && NoDup(l[k..]) && forall t :: t in l[..k] ==> t !in l[k..]
  {
    forall i, j | 0 <= i < k && 0 <= j < |l| - k ensures l[..k][i] != l[k..][j] {
      assert l[i] != l[k + j];
    }
  }

  function Relocated(at: map<TaskId, Place>, ts: seq<TaskId>, to: Place): map<TaskId, Place> {
    map t | t in at :: if t in ts then to else at[t]
  }

  // ---- the invariant ----

  /** The tag of a task is that of its place. */
  ghost predicate Tagged(check: map<TaskId, Tag>, at: map<TaskId, Place>) {
    && (forall t :: t in at ==> t in check && check[t] == TagOf(at[t]))
    && (forall t :: t in check && t !in at ==> check[t] == NoTag)
  }

  ghost predicate OneEach<K>(m: map<K, TaskId>) {
    forall j, k :: j in m && k in m && j != k ==> m[j] != m[k]
  }

  /** A sleeper has one timer, set or about to be set, and whoever has one sleeps. */
  ghost predicate Timed(arming: map<ProcId, TaskId>, timers: map<TimerId, TaskId>, at: map<TaskId, Place>) {
    && OneEach(arming) && OneEach(timers) && arming.Values !! timers.Values
    && (forall t :: t in arming.Values + timers.Values <==> t in at && at[t].Sleep?)
  }

  function Is(p: ProcId): ProcId -> bool { q => q == p }

  /** The count is the live tasks and the done ones not yet subtracted. */
  ghost predicate Tally(count: int, live: set<TaskId>, doneCount: map<ProcId, nat>, finished: map<TaskId, ProcId>) {
    && count == |live| + |finished| && live !! finished.Keys
    && forall p :: DoneBy(doneCount, p) == Count(finished, Is(p))
  }

  /** A thread has one current task at most and moves one task at a time. */
  predicate Single(lists: Lists) {
    forall pl :: pl in lists && (pl.Current? || pl.Hand?) ==> |lists[pl]| <= 1
  }

  ghost predicate Places(s: State, at: map<TaskId, Place>) {
    Placed(s.lists, at) && at.Keys == s.live && Tagged(s.check, at) && Single(s.lists)
  }

  ghost predicate Books(s: State) {
    Tally(s.taskCount, s.live, s.doneCount, s.finished) && s.finished.Keys <= s.check.Keys
  }

  ghost predicate Inv(s: State, at: map<TaskId, Place>) {
    Places(s, at) && Timed(s.arming, s.timers, at) && Books(s) && !s.assertFailed
  }

  // ---- steps that move one task ----

  datatype Trip = Stays | Goes(t: TaskId, from: Place, to: Place)

  function TripOf(s: State, step: Step): Trip
    requires Enabled(s, step)
  {
    match step
    case Deliver(w, p) => Goes(Head(s, Hand(w)), Hand(w), Run(p))
    case Pick(p) => Goes(Head(s, Run(p)), Run(p), Current(p))
    case Requeue(p) => Goes(Head(s, Current(p)), Current(p), Run(p))
    case Park(p, b) => Goes(Head(s, Current(p)), Current(p), if Signals(s, b) > 0 then Run(p) else BlockQ(b))
    case Wake(b, w, _) => if L(s.lists, BlockQ(b)) != [] then Goes(Head(s, BlockQ(b)), BlockQ(b), Hand(w)) else Stays
    case Cancel(b, t, w) => if s.check[t] == BlockTag(b) then Goes(t, BlockQ(b), Hand(w)) else Stays
    case SleepPush(p) => Goes(Head(s, Current(p)), Current(p), Sleep)
    case SleepFire(tm, w) =>
      var t := s.timers[tm];
      if t in s.check && s.check[t] == SleepTag then Goes(t, Sleep, Hand(w)) else Stays
    case IoPush(p) => Goes(Head(s, Current(p)), Current(p), Io)
    case IoErase(t, w) => Goes(t, Io, Hand(w))
    case _ => Stays
  }

  lemma ExecGoes(s: State, step: Step)
    requires Enabled(s, step) && TripOf(s, step).Goes?
    ensures var g := TripOf(s, step); var s', m := Exec(s, step), Move(s, g.t, g.from, g.to);
            && s'.lists == m.lists && s'.check == m.check && s'.live == s.live && s'.assertFailed == s.assertFailed
            && s'.taskCount == s.taskCount && s'.doneCount == s.doneCount && s'.finished == s.finished
    ensures !step.SleepPush? && !step.SleepFire? ==> Exec(s, step).arming == s.arming && Exec(s, step).timers == s.timers
  {
  }

  /** Whatever a step takes hold of is where the step looks for it. */
  lemma TripStarts(s: State, at: map<TaskId, Place>, step: Step)
    requires Placed(s.lists, at) && Tagged(s.check, at) && Enabled(s, step) && TripOf(s, step).Goes?
    ensures var g := TripOf(s, step); g.t in at && at[g.t] == g.from && g.from != g.to
  {
    var g := TripOf(s, step);
    if step.Cancel? || step.SleepFire? {
      FoundByTag(s, at, g.t, g.from);
    } else {
      assert g.t in L(s.lists, g.from);
    }
  }

  lemma FoundByTag(s: State, at: map<TaskId, Place>, t: TaskId, pl: Place)
    requires Tagged(s.check, at) && t in s.check && s.check[t] == TagOf(pl) && (pl.Sleep? || pl.BlockQ?)
    ensures t in at && at[t] == pl
  {
  }

  lemma TripEnds(s: State, step: Step)
    requires Enabled(s, step) && TripOf(s, step).Goes?
    ensures var g := TripOf(s, step); (g.to.Hand? || g.to.Current?) ==> L(s.lists, g.to) == []
    ensures TripOf(s, step).to.Sleep? <==> step.SleepPush?
    ensures TripOf(s, step).from.Sleep? <==> step.SleepFire?
  {
  }

  lemma TagMoves(s: State, at: map<TaskId, Place>, t: TaskId, to: Place)
    requires Distinct(s.lists) && Tagged(s.check, at) && t in at
    ensures Tagged(Move(s, t, at[t], to).check, at[t := to])
  {
  }

  lemma SingleMoves(s: State, t: TaskId, from: Place, to: Place)
    requires Distinct(s.lists) && Single(s.lists) && from != to && (to.Hand? || to.Current? ==> L(s.lists, to) == [])
    ensures Single(Move(s, t, from, to).lists)
  {
  }

  lemma GoesKeeps(s: State, at: map<TaskId, Place>, step: Step)
    requires Inv(s, at) && Enabled(s, step) && TripOf(s, step).Goes?
    ensures var g := TripOf(s, step); Inv(Exec(s, step), at[g.t := g.to])
  {
    var g := TripOf(s, step);
    TripStarts(s, at, step);
    TripEnds(s, step);
    ExecGoes(s, step);
    MoveKeeps(s, at, g.t, g.to);
    TagMoves(s, at, g.t, g.to);
    SingleMoves(s, g.t, g.from, g.to);
    TimedGoes(s, at, step);
    Assembled(s, at, Exec(s, step), at[g.t := g.to], Move(s, g.t, g.from, g.to));
  }

  /** The invariant of the next state, put together from its parts. */
  lemma Assembled(s: State, at: map<TaskId, Place>, s': State, at': map<TaskId, Place>, m: State)
    requires Inv(s, at) && at'.Keys == at.Keys && Placed(m.lists, at') && Tagged(m.check, at') && Single(m.lists)
    requires s'.lists == m.lists && s'.check == m.check && s'.live == s.live && s'.assertFailed == s.assertFailed
    requires s'.taskCount == s.taskCount && s'.doneCount == s.doneCount && s'.finished == s.finished
    requires Timed(s'.arming, s'.timers, at') && s.check.Keys <= s'.check.Keys
    ensures Inv(s', at')
  {
  }

  lemma TimedGoes(s: State, at: map<TaskId, Place>, step: Step)
    requires Inv(s, at) && Enabled(s, step) && TripOf(s, step).Goes?
    ensures var g := TripOf(s, step); Timed(Exec(s, step).arming, Exec(s, step).timers, at[g.t := g.to])
  {
    var g := TripOf(s, step);
    TripStarts(s, at, step);
    TripEnds(s, step);
    if step.SleepPush? {
      FallsAsleep(s.arming, s.timers, at, g.t, step.p);
    } else if step.SleepFire? {
      WakesUp(s.arming, s.timers, at, step.tm, g.to);
    } else {
      ExecGoes(s, step);
      Awake(s.arming, s.timers, at, g.t, g.to);
    }
  }

  lemma Awake(arming: map<ProcId, TaskId>, timers: map<TimerId, TaskId>, at: map<TaskId, Place>, t: TaskId, to: Place)
    requires Timed(arming, timers, at) && t in at && !at[t].Sleep? && !to.Sleep?
    ensures Timed(arming, timers, at[t := to])
  {
  }

  lemma ValuesAdd<K>(m: map<K, TaskId>, k: K, t: TaskId)
    requires k !in m
    ensures m[k := t].Values == m.Values + {t}
  {
    var m' := m[k := t];
    assert m'[k] == t;
    forall x | x in m.Values ensures x in m'.Values {
      var j :| j in m && m[j] == x;
      assert m'[j] == x;
    }
  }

  lemma ValuesRemove<K>(m: map<K, TaskId>, k: K)
    requires k in m && OneEach(m)
    ensures (m - {k}).Values == m.Values - {m[k]}
  {
    var m' := m - {k};
    forall x | x in m.Values && x != m[k] ensures x in m'.Values {
      var j :| j in m && m[j] == x;
      assert m'[j] == x;
    }
  }

  lemma FallsAsleep(arming: map<ProcId, TaskId>, timers: map<TimerId, TaskId>, at: map<TaskId, Place>, t: TaskId, p: ProcId)
    requires Timed(arming, timers, at) && t in at && !at[t].Sleep? && p !in arming
    ensures Timed(arming[p := t], timers, at[t := Sleep])
  {
    assert t !in arming.Values && t !in timers.Values;
    ValuesAdd(arming, p, t);
  }

  lemma WakesUp(arming: map<ProcId, TaskId>, timers: map<TimerId, TaskId>, at: map<TaskId, Place>, tm: TimerId, to: Place)
    requires Timed(arming, timers, at) && tm in timers && !to.Sleep?
    ensures Timed(arming, timers - {tm}, at[timers[tm] := to])
  {
    assert timers[tm] in timers.Values;
    ValuesRemove(timers, tm);
  }

  // ---- the other steps ----

  lemma NewTask(check: map<TaskId, Tag>, lists: Lists, at: map<TaskId, Place>, t: TaskId, w: WorkerId)
    requires Tagged(check, at) && Single(lists) && t !in check && L(lists, Hand(w)) == []
    ensures Tagged(check[t := NoTag], at[t := Hand(w)]) && Single(Add(lists, Hand(w), t))
  {
  }

  lemma NewTally(count: int, live: set<TaskId>, doneCount: map<ProcId, nat>, finished: map<TaskId, ProcId>, t: TaskId)
    requires Tally(count, live, doneCount, finished) && t !in live && t !in finished
    ensures Tally(count + 1, live + {t}, doneCount, finished)
  {
  }

  lemma NewTimed(arming: map<ProcId, TaskId>, timers: map<TimerId, TaskId>, at: map<TaskId, Place>, t: TaskId, to: Place)
    requires Timed(arming, timers, at) && t !in at && !to.Sleep?
    ensures Timed(arming, timers, at[t := to])
  {
  }

  lemma NewKeeps(s: State, at: map<TaskId, Place>, t: TaskId, w: WorkerId)
    requires Inv(s, at) && t !in s.check && L(s.lists, Hand(w)) == []
    ensures Inv(Created(s, t, w), at[t := Hand(w)])
  {
    AddKeeps(s.lists, at, Hand(w), t);
    NewTask(s.check, s.lists, at, t, w);
    NewTally(s.taskCount, s.live, s.doneCount, s.finished, t);
    NewTimed(s.arming, s.timers, at, t, Hand(w));
  }

  lemma DoneTally(count: int, live: set<TaskId>, doneCount: map<ProcId, nat>, finished: map<TaskId, ProcId>, t: TaskId, p: ProcId)
    requires Tally(count, live, doneCount, finished) && t in live
    ensures Tally(count, live - {t}, doneCount[p := DoneBy(doneCount, p) + 1], finished[t := p])
  {
    assert finished[t := p].Keys == finished.Keys + {t};
    DoneCounts(doneCount, finished, t, p);
  }

  lemma DoneCounts(doneCount: map<ProcId, nat>, finished: map<TaskId, ProcId>, t: TaskId, p: ProcId)
    requires (forall q :: DoneBy(doneCount, q) == Count(finished, Is(q))) && t !in finished
    ensures forall q :: DoneBy(doneCount[p := DoneBy(doneCount, p) + 1], q) == Count(finished[t := p], Is(q))
  {
    forall q ensures DoneBy(doneCount[p := DoneBy(doneCount, p) + 1], q) == Count(finished[t := p], Is(q)) {
      CountUpdate(finished, t, p, Is(q));
    }
  }

  lemma DoneTask(check: map<TaskId, Tag>, at: map<TaskId, Place>, t: TaskId)
    requires Tagged(check, at) && t in at && at[t].Current?
    ensures Tagged(check, at - {t})
  {
  }

  lemma DoneTimed(arming: map<ProcId, TaskId>, timers: map<TimerId, TaskId>, at: map<TaskId, Place>, t: TaskId)
    requires Timed(arming, timers, at) && t in at && !at[t].Sleep?
    ensures Timed(arming, timers, at - {t})
  {
  }

  lemma InPlace(lists: Lists, at: map<TaskId, Place>, pl: Place, t: TaskId)
    requires Placed(lists, at) && t in L(lists, pl)
    ensures t in at && at[t] == pl
  {
  }

  lemma SingleRemoves(lists: Lists, pl: Place, t: TaskId)
    requires Distinct(lists) && Single(lists)
    ensures Single(Remove(lists, pl, t))
  {
  }

  lemma DonePlaces(s: State, at: map<TaskId, Place>, p: ProcId)
    requires Places(s, at) && L(s.lists, Current(p)) != []
    ensures Places(Finished(s, p), at - {Head(s, Current(p))})
  {
    var t := Head(s, Current(p));
    InPlace(s.lists, at, Current(p), t);
    RemoveKeeps(s.lists, at, t);
    SingleRemoves(s.lists, Current(p), t);
    DoneTask(s.check, at, t);
  }

  lemma DoneBooks(s: State, p: ProcId)
    requires Books(s) && L(s.lists, Current(p)) != [] && Head(s, Current(p)) in s.live && s.live <= s.check.Keys
    ensures Books(Finished(s, p))
  {
    DoneTally(s.taskCount, s.live, s.doneCount, s.finished, Head(s, Current(p)), p);
  }

  lemma DoneKeeps(s: State, at: map<TaskId, Place>, p: ProcId)
    requires Inv(s, at) && L(s.lists, Current(p)) != []
    ensures Inv(Finished(s, p), at - {Head(s, Current(p))})
  {
    var t := Head(s, Current(p));
    InPlace(s.lists, at, Current(p), t);
    DonePlaces(s, at, p);
    DoneBooks(s, p);
    DoneTimed(s.arming, s.timers, at, t);
  }

  lemma OthersSize(finished: map<TaskId, ProcId>, p: ProcId)
    ensures |Others(finished, p)| == |finished| - Count(finished, Is(p))
  {
    var gone := Having(finished, Is(p));
    assert Others(finished, p).Keys == finished.Keys - gone && gone <= finished.Keys;
  }

  lemma OthersCount(finished: map<TaskId, ProcId>, p: ProcId, q: ProcId)
    ensures Count(Others(finished, p), Is(q)) == if q == p then 0 else Count(finished, Is(q))
  {
    assert Having(Others(finished, p), Is(q)) == if q == p then {} else Having(finished, Is(q));
  }

  lemma SubtractTally(count: int, live: set<TaskId>, doneCount: map<ProcId, nat>, finished: map<TaskId, ProcId>, p: ProcId)
    requires Tally(count, live, doneCount, finished)
    ensures Tally(count - DoneBy(doneCount, p), live, doneCount[p := 0], Others(finished, p))
  {
    OthersSize(finished, p);
    forall q ensures DoneBy(doneCount[p := 0], q) == Count(Others(finished, p), Is(q)) {
      OthersCount(finished, p, q);
    }
  }

  lemma SubtractKeeps(s: State, at: map<TaskId, Place>, p: ProcId)
    requires Inv(s, at)
    ensures Inv(Subtracted(s, p), at)
  {
    SubtractTally(s.taskCount, s.live, s.doneCount, s.finished, p);
  }

  lemma ArmTimed(arming: map<ProcId, TaskId>, timers: map<TimerId, TaskId>, at: map<TaskId, Place>, p: ProcId, tm: TimerId)
    requires Timed(arming, timers, at) && p in arming && tm !in timers
    ensures Timed(arming - {p}, timers[tm := arming[p]], at)
  {
    assert arming[p] in arming.Values;
    ValuesRemove(arming, p);
    ValuesAdd(timers, tm, arming[p]);
  }

  lemma ArmKeeps(s: State, at: map<TaskId, Place>, p: ProcId, tm: TimerId)
    requires Inv(s, at) && p in s.arming && tm !in s.timers
    ensures Inv(Armed(s, p, tm), at)
  {
    ArmTimed(s.arming, s.timers, at, p, tm);
  }

  lemma StealTags(check: map<TaskId, Tag>, arming: map<ProcId, TaskId>, timers: map<TimerId, TaskId>,
                  at: map<TaskId, Place>, ts: seq<TaskId>, to: Place)
    requires Tagged(check, at) && Timed(arming, timers, at) && (to.Run? || to.Loot?)
    requires forall t :: t in ts ==> t in at && (at[t].Run? || at[t].Loot?)
    ensures Tagged(check, Relocated(at, ts, to)) && Timed(arming, timers, Relocated(at, ts, to))
  {
  }

  lemma LootedPlaces(s: State, at: map<TaskId, Place>, p: ProcId, w: WorkerId, k: nat)
    requires Placed(s.lists, at) && Single(s.lists) && L(s.lists, Loot(w)) == [] && k <= |L(s.lists, Run(p))|
    ensures var l := L(s.lists, Run(p)); var lists := s.lists[Run(p) := l[..k]][Loot(w) := l[k..]];
            Placed(lists, Relocated(at, l[k..], Loot(w))) && Single(lists)
  {
    StealPopKeeps(s.lists, at, Run(p), Loot(w), k);
  }

  lemma LootedTags(s: State, at: map<TaskId, Place>, p: ProcId, w: WorkerId, k: nat)
    requires Inv(s, at) && k <= |L(s.lists, Run(p))|
    ensures var at' := Relocated(at, L(s.lists, Run(p))[k..], Loot(w));
            Tagged(s.check, at') && Timed(s.arming, s.timers, at') && at'.Keys == s.live
  {
    var l := L(s.lists, Run(p));
    forall t | t in l[k..] ensures t in at && at[t] == Run(p) {
      assert t in l;
      InPlace(s.lists, at, Run(p), t);
    }
    StealTags(s.check, s.arming, s.timers, at, l[k..], Loot(w));
  }

  lemma LootedKeeps(s: State, at: map<TaskId, Place>, p: ProcId, w: WorkerId, n: nat) returns (at': map<TaskId, Place>)
    requires Inv(s, at) && L(s.lists, Loot(w)) == [] && L(s.lists, Run(p)) != []
    ensures Inv(Looted(s, p, w, n), at')
  {
    var l := L(s.lists, Run(p));
    var k := |l| - Taken(n, |l|);
    LootedPlaces(s, at, p, w, k);
    LootedTags(s, at, p, w, k);
    at' := Relocated(at, l[k..], Loot(w));
  }

  lemma SplicedKeeps(s: State, at: map<TaskId, Place>, w: WorkerId, p: ProcId) returns (at': map<TaskId, Place>)
    requires Inv(s, at) && L(s.lists, Loot(w)) != []
    ensures Inv(Spliced(s, w, p), at')
  {
    var l := L(s.lists, Loot(w));
    StealPushKeeps(s.lists, at, Loot(w), Run(p));
    StealTags(s.check, s.arming, s.timers, at, l, Run(p));
    at' := Relocated(at, l, Run(p));
  }

  lemma StepKeepsInv(s: State, at: map<TaskId, Place>, step: Step) returns (at': map<TaskId, Place>)
    requires Inv(s, at) && Enabled(s, step)
    ensures Inv(Exec(s, step), at')
  {
    at' := at;
    if TripOf(s, step).Goes? {
      var g := TripOf(s, step);
      GoesKeeps(s, at, step);
      at' := at[g.t := g.to];
    } else if step.New? {
      NewKeeps(s, at, step.t, step.w);
      at' := at[step.t := Hand(step.w)];
    } else if step.Done? {
      DoneKeeps(s, at, step.p);
      at' := at - {Head(s, Current(step.p))};
    } else if step.Subtract? {
      SubtractKeeps(s, at, step.p);
    } else if step.Arm? {
      ArmKeeps(s, at, step.p, step.tm);
    } else if step.StealPop? {
      at' := LootedKeeps(s, at, step.p, step.w, step.n);
    } else if step.StealPush? {
      at' := SplicedKeeps(s, at, step.w, step.p);
    } else if step.SleepFire? {
      SleeperFound(s, at, step.tm);
    } else {
      StaysKeeps(s, at, step);
    }
  }

  /** The sleep list's assertion holds: the timer finds its task asleep. */
  lemma SleeperFound(s: State, at: map<TaskId, Place>, tm: TimerId)
    requires Inv(s, at) && tm in s.timers
    ensures s.timers[tm] in s.check && s.check[s.timers[tm]] == SleepTag && s.timers[tm] in L(s.lists, Sleep)
  {
    assert s.timers[tm] in s.timers.Values;
  }

  lemma SignalKeeps(s: State, at: map<TaskId, Place>, signals: map<BlockId, nat>)
    requires Inv(s, at)
    ensures Inv(s.(signals := signals), at)
  {
  }

  /** A wake-up without a waiter and a stale cancel. */
  lemma StaysKeeps(s: State, at: map<TaskId, Place>, step: Step)
    requires Inv(s, at) && Enabled(s, step) && TripOf(s, step).Stays? && (step.Wake? || step.Cancel?)
    ensures Inv(Exec(s, step), at)
  {
    SignalKeeps(s, at, Exec(s, step).signals);
    assert Exec(s, step) == s.(signals := Exec(s, step).signals);
  }

  // ---- every run ----

  ghost predicate IsRun(states: seq<State>, steps: seq<Step>) {
    && |states| == |steps| + 1 && states[0] == Init()
    && forall i :: 0 <= i < |steps| ==> Enabled(states[i], steps[i]) && states[i + 1] == Exec(states[i], steps[i])
  }

  lemma InitInv()
    ensures Inv(Init(), map[])
  {
    assert forall p :: Having(Init().finished, Is(p)) == {};
  }

  lemma {:induction false} RunKeepsInv(states: seq<State>, steps: seq<Step>, n: nat) returns (at: map<TaskId, Place>)
    requires IsRun(states, steps) && n < |states|
    ensures Inv(states[n], at)
  {
    if n == 0 {
      InitInv();
      at := map[];
    } else {
      at := RunKeepsInv(states, steps, n - 1);
      at := StepKeepsInv(states[n - 1], at, steps[n - 1]);
    }
  }

  /** In every reachable state each live task is in exactly one place, once, and nothing else is in any
      place. */
  lemma ExactlyOnePlace(states: seq<State>, steps: seq<Step>, n: nat, t: TaskId) returns (home: Place, k: nat)
    requires IsRun(states, steps) && n < |states| && t in states[n].live
    ensures home in states[n].lists && k < |states[n].lists[home]| && states[n].lists[home][k] == t
    ensures forall pl, i :: pl in states[n].lists && 0 <= i < |states[n].lists[pl]| && states[n].lists[pl][i] == t
                            ==> pl == home && i == k
  {
    var at := RunKeepsInv(states, steps, n);
    home := at[t];
    k :| 0 <= k < |states[n].lists[home]| && states[n].lists[home][k] == t;
    var lists := states[n].lists;
    forall pl, i | pl in lists && 0 <= i < |lists[pl]| && lists[pl][i] == t ensures pl == home && i == k {
      InPlace(lists, at, pl, t);
      assert NoDup(lists[home]);
    }
  }

  lemma OnlyLiveTasks(states: seq<State>, steps: seq<Step>, n: nat, pl: Place, t: TaskId)
    requires IsRun(states, steps) && n < |states| && t in L(states[n].lists, pl)
    ensures t in states[n].live
  {
    var at := RunKeepsInv(states, steps, n);
    InPlace(states[n].lists, at, pl, t);
  }

  /** A task that a step puts into an intrusive list has a free hook, and one that a step takes out of
      such a list is in that very list: no link pair is ever shared. */
  lemma HookIsFree(states: seq<State>, steps: seq<Step>, n: nat)
    requires IsRun(states, steps) && n < |steps| && TripOf(states[n], steps[n]).Goes?
    ensures var g := TripOf(states[n], steps[n]);
            && g.t in L(states[n].lists, g.from) && g.t in states[n].check && states[n].check[g.t] == TagOf(g.from)
            && (TagOf(g.to) != NoTag ==> states[n].check[g.t] == NoTag)
  {
    var at := RunKeepsInv(states, steps, n);
    TripStarts(states[n], at, steps[n]);
  }

  /** `task_count_` is the number of live tasks and of done tasks not yet subtracted, and the assertion
      in the sleep list's wake-up never fails. */
  lemma CountIsExact(states: seq<State>, steps: seq<Step>, n: nat)
    requires IsRun(states, steps) && n < |states|
    ensures states[n].taskCount == |states[n].live| + |states[n].finished|
    ensures forall p :: DoneBy(states[n].doneCount, p) == Count(states[n].finished, Is(p))
    ensures !states[n].assertFailed
  {
    var at := RunKeepsInv(states, steps, n);
  }
}
