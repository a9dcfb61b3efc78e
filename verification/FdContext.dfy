/** The waiters of one file descriptor and its registration with epoll. Every operation is one section
    under the context's lock; the kernel is the log of calls made to it. */
module FdContexts {
  import opened Commons

  /** The part of a poll mask that epoll is asked for. */
  datatype Mask = Mask(input: bool, output: bool)

  const NONE := Mask(false, false)

  function Union(a: Mask, b: Mask): Mask { Mask(a.input || b.input, a.output || b.output) }

  function Minus(a: Mask, b: Mask): Mask { Mask(a.input && !b.input, a.output && !b.output) }

  predicate Covers(a: Mask, b: Mask) { (b.input ==> a.input) && (b.output ==> a.output) }

  predicate Meets(a: Mask, b: Mask) { (a.input && b.input) || (a.output && b.output) }

  /** Readiness that epoll reports; `error` stands for every bit beside input and output. */
  datatype Events = Events(ready: Mask, error: bool)

  /** What one `pollfd` of a waiter was asked for, and the sentry that waits. */
  datatype Waiter = Waiter(sentry: SentryId, wants: Mask)

  datatype Ctl = CtlAdd(mask: Mask) | CtlMod(mask: Mask) | CtlDel

  /** The three task sets; `calls` are the epoll calls that succeeded, in order. */
  datatype Fd = Fd(
    closed: bool, pending: Mask,
    ins: map<TaskId, Waiter>, outs: map<TaskId, Waiter>, both: map<TaskId, Waiter>,
    calls: seq<Ctl>)

  datatype Kind = In | Out | Both

  /** `ChooseSet`: a mask with neither bit goes where both bits go. */
  function KindOf(wants: Mask): Kind {
    if wants == Mask(true, false) then In else if wants == Mask(false, true) then Out else Both
  }

  function Tasks(f: Fd, k: Kind): map<TaskId, Waiter> {
    match k case In => f.ins case Out => f.outs case Both => f.both
  }

  function SetTasks(f: Fd, k: Kind, m: map<TaskId, Waiter>): Fd {
    match k case In => f.(ins := m) case Out => f.(outs := m) case Both => f.(both := m)
  }

  function Fresh(): Fd { Fd(false, NONE, map[], map[], map[], []) }

  // ---- the operations ----

  /** `add_into_reactor`; `ok` is what epoll answers, if it is asked. */
  function Add(f: Fd, wants: Mask, t: TaskId, s: SentryId, ok: bool): (bool, Fd) {
    if f.closed then (false, f)
    else
      var k := KindOf(wants);
      var entered := SetTasks(f, k, Tasks(f, k)[t := Waiter(s, wants)]);
      if Covers(f.pending, wants) then (true, entered)
      else if !ok then (false, f)
      else
        var events := Union(f.pending, wants);
        (true, entered.(pending := events,
                        calls := f.calls + [if f.pending == NONE then CtlAdd(events) else CtlMod(events)]))
  }

  /** `del_events`. */
  function DelEvents(f: Fd, events: Mask): Fd {
    var left := Minus(f.pending, events);
    if left == f.pending then f
    else f.(pending := left, calls := f.calls + [if left == NONE then CtlDel else CtlMod(left)])
  }

  /** The bits that nobody needs once a set has become empty. */
  function Surplus(f: Fd, k: Kind): Mask {
    match k
    case In => Mask(f.both == map[], false)
    case Out => Mask(false, f.both == map[])
    case Both => Mask(f.ins == map[], f.outs == map[])
  }

  /** `del_from_reactor`, which finds a waiter by its task alone. */
  function Del(f: Fd, wants: Mask, t: TaskId): Fd {
    if f.closed || f.pending == NONE then f
    else
      var k := KindOf(wants);
      if t !in Tasks(f, k) then f
      else
        var g := SetTasks(f, k, Tasks(f, k) - {t});
        if Tasks(g, k) != map[] then g else DelEvents(g, Surplus(g, k))
  }

  /** The sentries of a set that still exist. */
  function Sentries(m: map<TaskId, Waiter>, alive: set<SentryId>): set<SentryId> {
    set t | t in m && m[t].sentry in alive :: m[t].sentry
  }

  /** `trigger_task_list`: the set is emptied into the output. */
  function TriggerSet(f: Fd, k: Kind, alive: set<SentryId>): (Fd, set<SentryId>) {
    (SetTasks(f, k, map[]), Sentries(Tasks(f, k), alive))
  }

  /** `reactor_trigger`. */
  function Trigger(f: Fd, e: Events, alive: set<SentryId>): (Fd, set<SentryId>) {
    if f.closed then (f, {})
    else if e.error then
      var (f1, a) := TriggerSet(f, In, alive);
      var (f2, b) := TriggerSet(f1, Out, alive);
      var (f3, c) := TriggerSet(f2, Both, alive);
      (DelEvents(f3, Mask(true, true)), a + b + c)
    else
      var (f1, a) := if e.ready.input then TriggerTwo(f, In, alive) else (f, {});
      var (f2, b) := if e.ready.output then TriggerTwo(f1, Out, alive) else (f1, {});
      (DelEvents(f2, e.ready), a + b)
  }

  function TriggerTwo(f: Fd, k: Kind, alive: set<SentryId>): (Fd, set<SentryId>) {
    var (f1, a) := TriggerSet(f, k, alive);
    var (f2, b) := TriggerSet(f1, Both, alive);
    (f2, a + b)
  }

  /** `close`: every waiter is triggered and nothing is asked of epoll any more. */
  function Close(f: Fd, alive: set<SentryId>): (Fd, set<SentryId>) {
    if f.closed then (f, {})
    else (Fd(true, NONE, map[], map[], map[], f.calls),
          Sentries(f.ins, alive) + Sentries(f.outs, alive) + Sentries(f.both, alive))
  }

  // ---- the kernel's side ----

  datatype Kernel = Rejects | Registered(mask: Option<Mask>)

  /** What epoll holds after one more call; it rejects a second ADD and a MOD or DEL without ADD. */
  function Answer(r: Kernel, c: Ctl): Kernel {
    match r
    case Rejects => Rejects
    case Registered(None) => if c.CtlAdd? then Registered(Some(c.mask)) else Rejects
    case Registered(Some(_)) =>
      match c
      case CtlAdd(_) => Rejects
      case CtlMod(m) => Registered(Some(m))
      case CtlDel => Registered(None)
  }

  function Replay(calls: seq<Ctl>): Kernel {
    if calls == [] then Registered(None) else Answer(Replay(calls[..|calls| - 1]), calls[|calls| - 1])
  }

  lemma ReplayNext(calls: seq<Ctl>, c: Ctl)
    ensures Replay(calls + [c]) == Answer(Replay(calls), c)
  {
    assert (calls + [c])[..|calls|] == calls;
  }

  /** The registration that the pending mask stands for. */
  function Wanted(pending: Mask): Kernel { Registered(if pending == NONE then None else Some(pending)) }

  // ---- what every operation keeps ----

  predicate Covered(m: map<TaskId, Waiter>, k: Kind, pending: Mask) {
    forall t :: t in m ==> KindOf(m[t].wants) == k && Covers(pending, m[t].wants)
  }

  /** Every waiter's mask is in the pending mask, and while the descriptor is open that mask is exactly
      what epoll has registered, all calls having been in order. */
  predicate Inv(f: Fd) {
    && Covered(f.ins, In, f.pending) && Covered(f.outs, Out, f.pending) && Covered(f.both, Both, f.pending)
    && (!f.closed ==> Replay(f.calls) == Wanted(f.pending))
    && (f.closed ==> !Replay(f.calls).Rejects? && f.ins == map[] && f.outs == map[] && f.both == map[] && f.pending == NONE)
  }

  lemma DelEventsKeeps(f: Fd, events: Mask)
    requires !f.closed && Replay(f.calls) == Wanted(f.pending)
    ensures var g := DelEvents(f, events);
            Replay(g.calls) == Wanted(g.pending) && g.pending == Minus(f.pending, events)
  {
    var left := Minus(f.pending, events);
    ReplayNext(f.calls, if left == NONE then CtlDel else CtlMod(left));
  }

  lemma AddKeeps(f: Fd, wants: Mask, t: TaskId, s: SentryId, ok: bool)
    requires Inv(f)
    ensures Inv(Add(f, wants, t, s, ok).1)
  {
    var events := Union(f.pending, wants);
    ReplayNext(f.calls, if f.pending == NONE then CtlAdd(events) else CtlMod(events));
  }

  /** What remains pending covers those who still wait. */
  lemma SurplusIsFree(f: Fd, k: Kind, t: TaskId)
    requires Inv(f)
    ensures var g := SetTasks(f, k, Tasks(f, k) - {t}); var left := Minus(g.pending, Surplus(g, k));
            Tasks(g, k) == map[] ==> Covered(g.ins, In, left) && Covered(g.outs, Out, left) && Covered(g.both, Both, left)
  {
  }

  lemma DelKeeps(f: Fd, wants: Mask, t: TaskId)
    requires Inv(f)
    ensures Inv(Del(f, wants, t))
  {
    var k := KindOf(wants);
    if !f.closed && t in Tasks(f, k) {
      var g := SetTasks(f, k, Tasks(f, k) - {t});
      SurplusIsFree(f, k, t);
      DelEventsKeeps(g, Surplus(g, k));
    }
  }

  /** Which sets an event empties. */
  predicate Empties(e: Events, k: Kind) {
    e.error || match k case In => e.ready.input case Out => e.ready.output case Both => e.ready != NONE
  }

  function Emptied(f: Fd, e: Events): Fd {
    f.(ins := if Empties(e, In) then map[] else f.ins, outs := if Empties(e, Out) then map[] else f.outs,
       both := if Empties(e, Both) then map[] else f.both)
  }

  function Reported(e: Events): Mask { if e.error then Mask(true, true) else e.ready }

  function Released(f: Fd, e: Events, k: Kind, alive: set<SentryId>): set<SentryId> {
    if Empties(e, k) then Sentries(Tasks(f, k), alive) else {}
  }

  /** The event leaves the sets it does not concern alone; the output is the living sentries of the
      others. */
  lemma TriggerIs(f: Fd, e: Events, alive: set<SentryId>)
    requires !f.closed
    ensures Trigger(f, e, alive).0 == DelEvents(Emptied(f, e), Reported(e))
    ensures Trigger(f, e, alive).1 == Released(f, e, In, alive) + Released(f, e, Out, alive) + Released(f, e, Both, alive)
  {
  }

  lemma TriggerKeeps(f: Fd, e: Events, alive: set<SentryId>)
    requires Inv(f)
    ensures Inv(Trigger(f, e, alive).0)
  {
    if !f.closed {
      TriggerIs(f, e, alive);
      DelEventsKeeps(Emptied(f, e), Reported(e));
      EmptiedIsCovered(f, e);
    }
  }

  lemma EmptiedIsCovered(f: Fd, e: Events)
    requires Inv(f)
    ensures var g := Emptied(f, e); var left := Minus(f.pending, Reported(e));
            Covered(g.ins, In, left) && Covered(g.outs, Out, left) && Covered(g.both, Both, left)
  {
  }

  lemma CloseKeeps(f: Fd, alive: set<SentryId>)
    requires Inv(f)
    ensures Inv(Close(f, alive).0)
  {
  }

  // ---- every history ----

  datatype Op =
    | DoAdd(wants: Mask, t: TaskId, s: SentryId, ok: bool)
    | DoDel(wants: Mask, t: TaskId)
    | DoTrigger(e: Events, alive: set<SentryId>)
    | DoClose(alive: set<SentryId>)

  function Apply(f: Fd, op: Op): Fd {
    match op
    case DoAdd(wants, t, s, ok) => Add(f, wants, t, s, ok).1
    case DoDel(wants, t) => Del(f, wants, t)
    case DoTrigger(e, alive) => Trigger(f, e, alive).0
    case DoClose(alive) => Close(f, alive).0
  }

  function After(ops: seq<Op>): Fd {
    if ops == [] then Fresh() else Apply(After(ops[..|ops| - 1]), ops[|ops| - 1])
  }

  /** Coverage and registration in every reachable state. */
  lemma {:induction false} HistoryKeepsInv(ops: seq<Op>)
    ensures Inv(After(ops))
  {
    if ops != [] {
      HistoryKeepsInv(ops[..|ops| - 1]);
      var f := After(ops[..|ops| - 1]);
      match ops[|ops| - 1]
      case DoAdd(wants, t, s, ok) => AddKeeps(f, wants, t, s, ok);
      case DoDel(wants, t) => DelKeeps(f, wants, t);
      case DoTrigger(e, alive) => TriggerKeeps(f, e, alive);
      case DoClose(alive) => CloseKeeps(f, alive);
    }
  }

  /** After a trigger no waiter that matches the event is left, all that left and still exist are in
      the output, and the others stay as they were. */
  lemma TriggerReleases(f: Fd, e: Events, alive: set<SentryId>, k: Kind, t: TaskId)
    requires Inv(f) && !f.closed && t in Tasks(f, k)
    ensures var (g, out) := Trigger(f, e, alive); var w := Tasks(f, k)[t];
            && (e.error || Meets(w.wants, e.ready) ==> t !in Tasks(g, k))
            && (t !in Tasks(g, k) && w.sentry in alive ==> w.sentry in out)
            && (t in Tasks(g, k) ==> Tasks(g, k)[t] == w && Covers(g.pending, w.wants))
  {
    TriggerKeeps(f, e, alive);
    TriggerIs(f, e, alive);
    var w := Tasks(f, k)[t];
    assert w.sentry in alive ==> w.sentry in Sentries(Tasks(f, k), alive);
  }

  // ---- what becomes of every waiter ----

  function Lookup(f: Fd, k: Kind, t: TaskId): Option<Waiter> {
    if t in Tasks(f, k) then Some(Tasks(f, k)[t]) else None
  }

  /** The event is for this waiter; one that asked for neither bit is released by either. */
  predicate Concerns(e: Events, w: Waiter) {
    e.error || Meets(w.wants, e.ready) || (w.wants == NONE && e.ready != NONE)
  }

  /** Who waits for task `t` in a set after the operation: the new sentry, nobody, or who did before. */
  function Fate(f: Fd, op: Op, k: Kind, t: TaskId): Option<Waiter> {
    var was := Lookup(f, k, t);
    match op
    case DoAdd(wants, u, s, ok) =>
      if u == t && KindOf(wants) == k && !f.closed && (ok || Covers(f.pending, wants)) then Some(Waiter(s, wants)) else was
    case DoDel(wants, u) => if u == t && KindOf(wants) == k && f.pending != NONE then None else was
    case DoTrigger(e, _) => if was.Some? && Concerns(e, was.value) then None else was
    case DoClose(_) => None
  }

  lemma AddFate(f: Fd, op: Op, k: Kind, t: TaskId)
    requires op.DoAdd?
    ensures Lookup(Apply(f, op), k, t) == Fate(f, op, k, t)
  {
  }

  lemma DelFate(f: Fd, op: Op, k: Kind, t: TaskId)
    requires Inv(f) && op.DoDel?
    ensures Lookup(Apply(f, op), k, t) == Fate(f, op, k, t)
  {
  }

  lemma TriggerFate(f: Fd, op: Op, k: Kind, t: TaskId)
    requires Inv(f) && op.DoTrigger?
    ensures Lookup(Apply(f, op), k, t) == Fate(f, op, k, t)
  {
    if !f.closed {
      TriggerIs(f, op.e, op.alive);
    }
  }

  /** Every operation does this to every waiter. */
  lemma FateIs(f: Fd, op: Op, k: Kind, t: TaskId)
    requires Inv(f)
    ensures Lookup(Apply(f, op), k, t) == Fate(f, op, k, t)
  {
    match op
    case DoAdd(_, _, _, _) => AddFate(f, op, k, t);
    case DoDel(_, _) => DelFate(f, op, k, t);
    case DoTrigger(_, _) => TriggerFate(f, op, k, t);
    case DoClose(_) =>
  }

  /** The sentries an operation puts out to be triggered. */
  function Output(f: Fd, op: Op): set<SentryId> {
    match op
    case DoTrigger(e, alive) => Trigger(f, e, alive).1
    case DoClose(alive) => Close(f, alive).1
    case _ => {}
  }

  predicate Waits(f: Fd, k: Kind, t: TaskId, x: SentryId) { Lookup(f, k, t).Some? && Lookup(f, k, t).value.sentry == x }

  lemma SentryIn(m: map<TaskId, Waiter>, alive: set<SentryId>, x: SentryId)
    ensures x in Sentries(m, alive) <==> x in alive && exists t :: t in m && m[t].sentry == x
  {
  }

  /** `close` puts out every living sentry that waits, in whichever set, and nothing else. */
  lemma CloseReleases(f: Fd, alive: set<SentryId>, x: SentryId)
    requires !f.closed
    ensures x in Close(f, alive).1 <==> x in alive && exists k, t :: Waits(f, k, t, x)
  {
    SentryIn(f.ins, alive, x);
    SentryIn(f.outs, alive, x);
    SentryIn(f.both, alive, x);
    forall k, t | Waits(f, k, t, x) ensures t in Tasks(f, k) && Tasks(f, k)[t].sentry == x {
    }
    if exists t :: t in f.ins && f.ins[t].sentry == x {
      var t :| t in f.ins && f.ins[t].sentry == x;
      assert Waits(f, In, t, x);
    }
    if exists t :: t in f.outs && f.outs[t].sentry == x {
      var t :| t in f.outs && f.outs[t].sentry == x;
      assert Waits(f, Out, t, x);
    }
    if exists t :: t in f.both && f.both[t].sentry == x {
      var t :| t in f.both && f.both[t].sentry == x;
      assert Waits(f, Both, t, x);
    }
  }

  /** A trigger puts out exactly the living sentries whose waiters the event concerns. */
  lemma TriggerPutsOut(f: Fd, e: Events, alive: set<SentryId>, x: SentryId)
    requires Inv(f) && !f.closed
    ensures x in Trigger(f, e, alive).1
       <==> x in alive && exists k, t :: Waits(f, k, t, x) && Concerns(e, Tasks(f, k)[t])
  {
    TriggerIs(f, e, alive);
    forall k ensures x in Released(f, e, k, alive)
                <==> x in alive && exists t :: Waits(f, k, t, x) && Concerns(e, Tasks(f, k)[t])
    {
      SentryIn(Tasks(f, k), alive, x);
      if x in Released(f, e, k, alive) {
        var t :| t in Tasks(f, k) && Tasks(f, k)[t].sentry == x;
        assert Waits(f, k, t, x) && Concerns(e, Tasks(f, k)[t]);
      }
    }
  }

  /** In every history a living sentry that waits goes on waiting, or its own task takes it out or
      replaces it, or it is put out to be triggered. */
  lemma NoWaiterForgotten(ops: seq<Op>, i: nat, k: Kind, t: TaskId, x: SentryId)
    requires i < |ops| && Waits(After(ops[..i]), k, t, x) && !Waits(After(ops[..i + 1]), k, t, x)
    ensures || ((ops[i].DoDel? || ops[i].DoAdd?) && ops[i].t == t && KindOf(ops[i].wants) == k)
            || ((ops[i].DoTrigger? || ops[i].DoClose?) && (x in ops[i].alive ==> x in Output(After(ops[..i]), ops[i])))
  {
    var f := After(ops[..i]);
    HistoryKeepsInv(ops[..i]);
    assert ops[..i + 1] == ops[..i] + [ops[i]];
    AfterNext(ops[..i], ops[i]);
    FateIs(f, ops[i], k, t);
    if ops[i].DoTrigger? && !f.closed {
      TriggerPutsOut(f, ops[i].e, ops[i].alive, x);
    } else if ops[i].DoClose? {
      CloseReleases(f, ops[i].alive, x);
    }
  }

  // ---- what becomes of the pending mask ----

  /** Nobody is left in the two sets that a bit serves. */
  predicate IdleInput(f: Fd) { f.ins == map[] && f.both == map[] }
  predicate IdleOutput(f: Fd) { f.outs == map[] && f.both == map[] }

  /** A removal gives a bit up exactly when it leaves nobody whom that bit served. */
  lemma DelGivesUp(f: Fd, wants: Mask, t: TaskId)
    requires Inv(f)
    ensures var g := Del(f, wants, t); var found := t in Tasks(f, KindOf(wants));
            && g.pending.input == (f.pending.input && !(found && KindOf(wants) != Out && IdleInput(g)))
            && g.pending.output == (f.pending.output && !(found && KindOf(wants) != In && IdleOutput(g)))
  {
  }

  /** An addition succeeds if and only if the descriptor is open and epoll agrees, if it is asked at all. */
  lemma AddAnswers(f: Fd, wants: Mask, t: TaskId, s: SentryId, ok: bool)
    ensures Add(f, wants, t, s, ok).0 <==> !f.closed && (Covers(f.pending, wants) || ok)
    ensures Add(f, wants, t, s, ok).0 ==> Lookup(Add(f, wants, t, s, ok).1, KindOf(wants), t) == Some(Waiter(s, wants))
    ensures !Add(f, wants, t, s, ok).0 ==> Add(f, wants, t, s, ok).1 == f
  {
  }

  /** The bits that are pending after any other operation, and whether the descriptor is closed. */
  lemma PendingIs(f: Fd, op: Op)
    requires Inv(f)
    ensures var g := Apply(f, op);
            match op
            case DoAdd(wants, _, _, ok) =>
              g.pending == if f.closed || (!ok && !Covers(f.pending, wants)) then f.pending else Union(f.pending, wants)
            case DoDel(_, _) => true
            case DoTrigger(e, _) => g.pending == if e.error then NONE else Minus(f.pending, e.ready)
            case DoClose(_) => g.pending == NONE
    ensures Apply(f, op).closed == (f.closed || op.DoClose?)
  {
    if op.DoTrigger? && !f.closed {
      TriggerIs(f, op.e, op.alive);
    }
  }

  // ---- what the key of the task sets costs ----

  predicate Loses(f: Fd, g: Fd, k: Kind, t: TaskId, dying: SentryId) {
    t in Tasks(f, k) && Tasks(f, k)[t].sentry != dying && t !in Tasks(g, k)
  }

  /** A sentry's destructor takes its entry out by task. It takes out the entry of another sentry
      exactly when the same task has by then registered a new one in the same set. */
  lemma DestructorLosesIff(f: Fd, wants: Mask, t: TaskId, dying: SentryId)
    requires Inv(f)
    ensures (exists k, u :: Loses(f, Del(f, wants, t), k, u, dying))
       <==> (t in Tasks(f, KindOf(wants)) && Tasks(f, KindOf(wants))[t].sentry != dying && f.pending != NONE)
  {
    var k := KindOf(wants);
    var g := Del(f, wants, t);
    if t in Tasks(f, k) && Tasks(f, k)[t].sentry != dying && f.pending != NONE {
      assert Loses(f, g, k, t, dying);
    }
    forall k', u | Loses(f, g, k', u, dying) ensures k' == k && u == t {
    }
  }

  const INPUT := Mask(true, false)

  /** Task 1 waits for input with sentry 10, is triggered, and comes back with sentry 11. */
  const COME_BACK := [DoAdd(INPUT, 1, 10, true), DoTrigger(Events(INPUT, false), {10}), DoAdd(INPUT, 1, 11, true)]

  lemma ComesBack()
    ensures After(COME_BACK) == Fd(false, INPUT, map[1 := Waiter(11, INPUT)], map[], map[],
                                   [CtlAdd(INPUT), CtlDel, CtlAdd(INPUT)])
  {
    var a, b, c := COME_BACK[0], COME_BACK[1], COME_BACK[2];
    var f := Fd(false, INPUT, map[1 := Waiter(10, INPUT)], map[], map[], [CtlAdd(INPUT)]);
    var g := Fd(false, NONE, map[], map[], map[], [CtlAdd(INPUT), CtlDel]);
    assert [] + [a] == [a] && [a] + [b] == [a, b] && [a, b] + [c] == COME_BACK;
    AfterNext([], a);
    assert Apply(Fresh(), a) == f;
    AfterNext([a], b);
    TriggerIs(f, Events(INPUT, false), {10});
    assert Apply(f, b) == g;
    AfterNext([a, b], c);
  }

  /** If the first sentry, still held by the trigger loop, is destroyed only then, the second one is
      registered nowhere any more. */
  lemma LateDestructor()
    ensures After(COME_BACK).ins == map[1 := Waiter(11, INPUT)]
    ensures var f := After(COME_BACK + [DoDel(INPUT, 1)]);
            f.ins == map[] && f.pending == NONE && Replay(f.calls) == Registered(None)
  {
    ComesBack();
    AfterNext(COME_BACK, DoDel(INPUT, 1));
    HistoryKeepsInv(COME_BACK + [DoDel(INPUT, 1)]);
  }

  lemma AfterNext(ops: seq<Op>, op: Op)
    ensures After(ops + [op]) == Apply(After(ops), op)
  {
    assert (ops + [op])[..|ops|] == ops;
  }

  /** A waiter is taken out again unless nothing is pending, and then it asked for neither input nor
      output: only such an entry can outlive its sentry. */
  lemma DestructorErases(f: Fd, wants: Mask, t: TaskId)
    requires Inv(f) && t in Tasks(f, KindOf(wants))
    ensures t in Tasks(Del(f, wants, t), KindOf(wants)) <==> f.pending == NONE
    ensures f.pending == NONE ==> Tasks(f, KindOf(wants))[t].wants == NONE
  {
  }

  // ---- the object ----

  class FileDescriptorCtx {
    var closed: bool
    var pending: Mask
    var ins: map<TaskId, Waiter>
    var outs: map<TaskId, Waiter>
    var both: map<TaskId, Waiter>
    /** The kernel's side: the calls it has accepted. */
    ghost var calls: seq<Ctl>

    ghost function Now(): Fd
      reads this
    {
      Fd(closed, pending, ins, outs, both, calls)
    }

    constructor ()
      ensures Now() == Fresh()
    {
      closed, pending := false, NONE;
      ins, outs, both := map[], map[], map[];
      calls := [];
    }

    /** `ChooseSet`, read and written. */
    method Enter(k: Kind, t: TaskId, w: Waiter)
      modifies this`ins, this`outs, this`both
      ensures Now() == SetTasks(old(Now()), k, Tasks(old(Now()), k)[t := w])
    {
      match k
      case In => ins := ins[t := w];
      case Out => outs := outs[t := w];
      case Both => both := both[t := w];
    }

    method AddIntoReactor(wants: Mask, t: TaskId, s: SentryId, epollOk: bool) returns (ok: bool)
      requires Inv(Now())
      modifies this
      ensures (ok, Now()) == Add(old(Now()), wants, t, s, epollOk)
      ensures Inv(Now())
      ensures ok ==> t in Tasks(Now(), KindOf(wants)) && Covers(pending, wants)
    {
      AddKeeps(Now(), wants, t, s, epollOk);
      if closed {
        return false;
      }
      if !Covers(pending, wants) {
        var events := Union(pending, wants);
        if !epollOk {
          return false;
        }
        calls := calls + [if pending == NONE then CtlAdd(events) else CtlMod(events)];
        pending := events;
      }
      Enter(KindOf(wants), t, Waiter(s, wants));
      ok := true;
    }

    method RemoveEvents(events: Mask)
      modifies this`pending, this`calls
      ensures Now() == DelEvents(old(Now()), events)
    {
      var left := Minus(pending, events);
      if left == pending {
        return;
      }
      calls := calls + [if left == NONE then CtlDel else CtlMod(left)];
      pending := left;
    }

    method DelFromReactor(wants: Mask, t: TaskId)
      requires Inv(Now())
      modifies this
      ensures Now() == Del(old(Now()), wants, t) && Inv(Now())
    {
      DelKeeps(Now(), wants, t);
      if closed || pending == NONE {
        return;
      }
      match KindOf(wants)
      case In =>
        if t !in ins { return; }
        ins := ins - {t};
        if ins == map[] && both == map[] { RemoveEvents(Mask(true, false)); }
      case Out =>
        if t !in outs { return; }
        outs := outs - {t};
        if outs == map[] && both == map[] { RemoveEvents(Mask(false, true)); }
      case Both =>
        if t !in both { return; }
        both := both - {t};
        if both == map[] && (ins == map[] || outs == map[]) { RemoveEvents(Mask(ins == map[], outs == map[])); }
    }

    /** `trigger_task_list`: the walk over one set. */
    method TriggerTaskList(k: Kind, alive: set<SentryId>, output: set<SentryId>) returns (more: set<SentryId>)
      modifies this`ins, this`outs, this`both
      ensures Now() == SetTasks(old(Now()), k, map[])
      ensures more == output + Sentries(Tasks(old(Now()), k), alive)
    {
      var tasks := match k case In => ins case Out => outs case Both => both;
      more := output;
      var left := tasks.Keys;
      while left != {}
        invariant left <= tasks.Keys
        invariant more == output + (set t | t in tasks && t !in left && tasks[t].sentry in alive :: tasks[t].sentry)
        decreases |left|
      {
        var t :| t in left;
        if tasks[t].sentry in alive {
          more := more + {tasks[t].sentry};
        }
        left := left - {t};
      }
      match k
      case In => ins := map[];
      case Out => outs := map[];
      case Both => both := map[];
    }

    method TriggerTwoLists(k: Kind, alive: set<SentryId>, output: set<SentryId>) returns (more: set<SentryId>)
      modifies this`ins, this`outs, this`both
      ensures Now() == TriggerTwo(old(Now()), k, alive).0 && more == output + TriggerTwo(old(Now()), k, alive).1
    {
      more := TriggerTaskList(k, alive, output);
      more := TriggerTaskList(Both, alive, more);
    }

    method ReactorTrigger(e: Events, alive: set<SentryId>) returns (output: set<SentryId>)
      requires Inv(Now())
      modifies this
      ensures Now() == Trigger(old(Now()), e, alive).0 && output == Trigger(old(Now()), e, alive).1 && Inv(Now())
    {
      TriggerKeeps(Now(), e, alive);
      output := {};
      if closed {
        return;
      }
      if e.error {
        output := TriggerTaskList(In, alive, output);
        output := TriggerTaskList(Out, alive, output);
        output := TriggerTaskList(Both, alive, output);
        RemoveEvents(Mask(true, true));
      } else {
        if e.ready.input {
          output := TriggerTwoLists(In, alive, output);
        }
        if e.ready.output {
          output := TriggerTwoLists(Out, alive, output);
        }
        RemoveEvents(e.ready);
      }
      assert output == Trigger(old(Now()), e, alive).1;
    }

    method CloseFd(alive: set<SentryId>) returns (output: set<SentryId>)
      requires Inv(Now())
      modifies this
      ensures Now() == Close(old(Now()), alive).0 && output == Close(old(Now()), alive).1 && Inv(Now())
      ensures !old(closed) ==> forall x :: x in output <==> x in alive && exists k, t :: Waits(old(Now()), k, t, x)
    {
      CloseKeeps(Now(), alive);
      ghost var f := Now();
      if !closed {
        forall x ensures x in Close(f, alive).1 <==> x in alive && exists k, t :: Waits(f, k, t, x) {
          CloseReleases(f, alive, x);
        }
      }
      output := {};
      if closed {
        return;
      }
      closed := true;
      pending := NONE;
      output := TriggerTaskList(In, alive, output);
      output := TriggerTaskList(Out, alive, output);
      output := TriggerTaskList(Both, alive, output);
    }
  }
}
