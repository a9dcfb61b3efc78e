/** The channel seen by its callers: which values the writes were given and the reads delivered, which
    call a task is in, and what a call does that nobody disturbs. All of it is told from the steps. */
module ChannelCalls {
  import opened Commons
  import opened BlockObjects
  import opened Channels

  // ---- the call a task is in ----

  /** The step begins a call of an operator. */
  predicate Begins<T>(step: Step<T>) { step.BeginPush? || step.BeginTimedPush? || step.TryPush? || step.BeginPop? }

  /** The last call that task `t` began among the first `i` steps. */
  ghost function CallOf<T>(steps: seq<Step<T>>, t: TaskId, i: nat): Option<Step<T>>
    requires i <= |steps|
  {
    if i == 0 then None
    else if Begins(steps[i - 1]) && steps[i - 1].t == t then Some(steps[i - 1])
    else CallOf(steps, t, i - 1)
  }

  predicate Writes<T>(call: Step<T>) { call.BeginPush? || call.BeginTimedPush? || call.TryPush? }

  predicate Reads<T>(call: Step<T>, kinds: set<ReadKind>) { call.BeginPop? && call.kind in kinds }

  /** The places a call passes through: each operator has its own. */
  ghost predicate InCall<T>(pc: Pc<T>, call: Option<Step<T>>) {
    match pc
    case Idle => true
    case WWait(v) => call.Some? && call.value.BeginPush? && call.value.v == v
    case WTimed(v) => call.Some? && call.value.BeginTimedPush? && call.value.v == v
    case WCredit(v) => call.Some? && Writes(call.value) && call.value.v == v
    case WPushed => call.Some? && Writes(call.value)
    case RBegin(kind) => call.Some? && Reads(call.value, {kind})
    case RWait => call.Some? && Reads(call.value, {Blocking})
    case RTimed => call.Some? && Reads(call.value, {Timed})
    case RRecheck => call.Some? && Reads(call.value, {Timed})
    case RItem => call.Some? && call.value.BeginPop?
    case _ => call.Some? && Reads(call.value, {Timed, Try})
  }

  ghost predicate Follows<T>(s: State<T>, t: TaskId, call: Option<Step<T>>) {
    t in s.tasks ==> InCall(s.tasks[t].pc, call)
  }

  function CallAfter<T>(step: Step<T>, t: TaskId, call: Option<Step<T>>): Option<Step<T>> {
    if Begins(step) && step.t == t then Some(step) else call
  }

  lemma WakeFollows<T>(s: State<T>, side: Side, t: TaskId, call: Option<Step<T>>)
    requires Follows(s, t, call)
    ensures Follows(Wake(s, side), t, call)
  {
  }

  /** Steps of a task inside one call. */
  predicate Inner<T>(step: Step<T>) { step.Push? || step.Yield? || step.Forget? || step.Pop? }

  /** Steps that try for a stored signal. */
  predicate Tries<T>(step: Step<T>) { step.Recheck? || step.LoopRead? || step.LoopWrite? }

  lemma TryFollows<T>(s: State<T>, step: Step<T>, t: TaskId, call: Option<Step<T>>)
    requires Enabled(s, step) && Tries(step) && Follows(s, t, call)
    ensures Follows(Exec(s, step), t, call)
  {
  }

  lemma InnerFollows<T>(s: State<T>, step: Step<T>, t: TaskId, call: Option<Step<T>>)
    requires Enabled(s, step) && Inner(step) && Follows(s, t, call)
    ensures Follows(Exec(s, step), t, call)
  {
  }

  lemma WaitFollows<T>(s: State<T>, step: Step<T>, t: TaskId, call: Option<Step<T>>)
    requires Enabled(s, step) && (step.Wait? || step.OutsideTake? || step.OutsideExpire?) && Follows(s, t, call)
    ensures Follows(Exec(s, step), t, call)
  {
  }

  lemma ParkFollows<T>(s: State<T>, step: Step<T>, t: TaskId, call: Option<Step<T>>)
    requires Enabled(s, step) && (step.Park? || step.Expire?) && Follows(s, t, call)
    ensures Follows(Exec(s, step), t, call)
  {
    var s' := Exec(s, step);
    assert t in s.tasks <==> t in s'.tasks;
    assert t in s.tasks && s'.tasks[t].pc != s.tasks[t].pc ==>
      s'.tasks[t].pc == Granted(s.tasks[t].pc) || s'.tasks[t].pc == TimedOut(s.tasks[t].pc);
  }

  lemma WakeStepFollows<T>(s: State<T>, step: Step<T>, t: TaskId, call: Option<Step<T>>)
    requires Enabled(s, step) && (step.WakeReader? || step.WakeWriter?) && Follows(s, t, call)
    ensures Follows(Exec(s, step), t, call)
  {
    if step.WakeReader? {
      WakeFollows(WithTask(s, step.t, s.tasks[step.t].(pc := Idle)), ReadSide, t, call);
    } else {
      WakeFollows(Started(s, step.t), WriteSide, t, call);
    }
  }

  lemma BeginFollows<T>(s: State<T>, step: Step<T>, t: TaskId, call: Option<Step<T>>)
    requires Enabled(s, step) && (Begins(step) || step.Spawn?) && Follows(s, t, call)
    ensures Follows(Exec(s, step), t, CallAfter(step, t, call))
  {
  }

  lemma StepFollows<T>(s: State<T>, step: Step<T>, t: TaskId, call: Option<Step<T>>)
    requires Enabled(s, step) && Follows(s, t, call)
    ensures Follows(Exec(s, step), t, CallAfter(step, t, call))
  {
    if step.WakeReader? || step.WakeWriter? {
      WakeStepFollows(s, step, t, call);
    } else if step.Park? || step.Expire? {
      ParkFollows(s, step, t, call);
    } else if Tries(step) {
      TryFollows(s, step, t, call);
    } else if Inner(step) {
      InnerFollows(s, step, t, call);
    } else if Begins(step) || step.Spawn? {
      BeginFollows(s, step, t, call);
    } else {
      WaitFollows(s, step, t, call);
    }
  }

  /** A task is always at a place of the call that it began: a blocking read never withdraws, a try-read
      never parks, and a write carries the value that it was given. */
  lemma {:induction false} CallsAreFollowed<T>(run: seq<State<T>>, steps: seq<Step<T>>, capacity: nat, t: TaskId, i: nat)
    requires IsRun(run, steps, capacity) && i < |run|
    ensures Follows(run[i], t, CallOf(steps, t, i))
  {
    if i > 0 {
      CallsAreFollowed(run, steps, capacity, t, i - 1);
      StepFollows(run[i - 1], steps[i - 1], t, CallOf(steps, t, i - 1));
    }
  }

  // ---- what was written and what was read ----

  /** The values of the first `i` steps that push, as the writers gave them to their calls. */
  ghost function Written<T>(steps: seq<Step<T>>, i: nat): seq<T>
    requires i <= |steps|
  {
    if i == 0 then []
    else
      var before := Written(steps, i - 1);
      if !steps[i - 1].Push? then before
      else
        var call := CallOf(steps, steps[i - 1].t, i - 1);
        if call.Some? && Writes(call.value) then before + [call.value.v] else before
  }

  /** How many of the first `i` steps pop. */
  ghost function Pops<T>(steps: seq<Step<T>>, i: nat): nat
    requires i <= |steps|
  {
    if i == 0 then 0 else Pops(steps, i - 1) + One(steps[i - 1].Pop?)
  }

  lemma WakeMovesNoValue<T>(s: State<T>, side: Side)
    ensures var s' := Wake(s, side); s'.pushed == s.pushed && s'.popped == s.popped && s'.queue == s.queue && s'.got == s.got
  {
  }

  /** What one step does to the values. */
  lemma StepMoves<T>(s: State<T>, step: Step<T>)
    requires Enabled(s, step) && !s.underflow && (step.Pop? ==> s.queue != [])
    ensures var s' := Exec(s, step);
            && s'.pushed == (if step.Push? then s.pushed + [s.tasks[step.t].pc.v] else s.pushed)
            && s'.popped == (if step.Pop? then s.popped + [s.queue[0]] else s.popped)
            && s'.got == (if step.Pop? then s.got[step.t := s.queue[0]] else s.got)
  {
    if step.WakeReader? {
      WakeMovesNoValue(WithTask(s, step.t, s.tasks[step.t].(pc := Idle)), ReadSide);
    } else if step.WakeWriter? {
      WakeMovesNoValue(Started(s, step.t), WriteSide);
    }
  }

  /** Over every run the values pushed are those the writers passed, one for each push, in the order of
      the pushes; and as many have been read as there were pops. */
  lemma {:induction false} WrittenIsPushed<T>(run: seq<State<T>>, steps: seq<Step<T>>, capacity: nat, i: nat)
    requires IsRun(run, steps, capacity) && i < |run|
    ensures run[i].pushed == Written(steps, i)
    ensures |run[i].popped| == Pops(steps, i) <= |Written(steps, i)|
    ensures run[i].popped == Written(steps, i)[..Pops(steps, i)] && run[i].queue == Written(steps, i)[Pops(steps, i)..]
  {
    Fifo(run, steps, capacity, i);
    if i > 0 {
      WrittenIsPushed(run, steps, capacity, i - 1);
      Fifo(run, steps, capacity, i - 1);
      StepMoves(run[i - 1], steps[i - 1]);
      CallsAreFollowed(run, steps, capacity, steps[i - 1].t, i - 1);
    }
  }

  /** The n-th read is given the n-th value written, and nothing else changes what a task was given. */
  lemma ReadsDeliver<T>(run: seq<State<T>>, steps: seq<Step<T>>, capacity: nat, i: nat)
    requires IsRun(run, steps, capacity) && i < |steps|
    ensures steps[i].Pop? ==>
      && Pops(steps, i) < |Written(steps, i)|
      && run[i + 1].got == run[i].got[steps[i].t := Written(steps, i)[Pops(steps, i)]]
    ensures !steps[i].Pop? ==> run[i + 1].got == run[i].got
  {
    WrittenIsPushed(run, steps, capacity, i);
    Fifo(run, steps, capacity, i);
    StepMoves(run[i], steps[i]);
  }

  // ---- calls that nobody disturbs ----

  /** The steps can be taken one after the other, and end there. */
  ghost predicate Leads<T>(s: State<T>, steps: seq<Step<T>>, end: State<T>)
    decreases |steps|
  {
    if steps == [] then s == end else Enabled(s, steps[0]) && Leads(Exec(s, steps[0]), steps[1..], end)
  }

  lemma OneLeads<T>(s: State<T>, a: Step<T>)
    requires Enabled(s, a)
    ensures Leads(s, [a], Exec(s, a))
  {
    assert Leads(Exec(s, a), [], Exec(s, a));
  }

  lemma TwoLead<T>(s: State<T>, a: Step<T>, b: Step<T>)
    requires Enabled(s, a) && Enabled(Exec(s, a), b)
    ensures Leads(s, [a, b], Exec(Exec(s, a), b))
  {
    OneLeads(Exec(s, a), b);
    assert [a, b][1..] == [b];
  }

  ghost predicate IsAt<T>(s: State<T>, t: TaskId, pc: Pc<T>) { t in s.tasks && s.tasks[t].place == Active && s.tasks[t].pc == pc }

  /** The signal of a finished step went to the first who waits, who is active and has it, or is stored. */
  ghost predicate Signalled<T>(b: Block, tasks: map<TaskId, Thread<T>>, b': Block, tasks': map<TaskId, Thread<T>>) {
    if b.queue == [] then b' == b.(wakeup := if b.wakeup < b.limit then b.wakeup + 1 else b.wakeup)
    else
      var u := b.queue[0];
      && b' == b.(queue := b.queue[1..]) && u in tasks && u in tasks' && tasks'[u].place == Active
      && ((tasks[u].pc.WWait? || tasks[u].pc.WTimed?) ==> tasks'[u].pc == WCredit(tasks[u].pc.v))
      && (tasks[u].pc.RWait? || tasks[u].pc.RTimed? ==> tasks'[u].pc == RItem)
  }

  /** Everything that a caller can see of a channel but the two block objects. */
  ghost predicate SameValues<T>(s: State<T>, s': State<T>) {
    s'.queue == s.queue && s'.pushed == s.pushed && s'.popped == s.popped && s'.got == s.got
  }

  lemma WakeSignals<T>(s: State<T>, side: Side)
    requires Placed(s)
    ensures var s' := Wake(s, side);
            && SameValues(s, s') && Signalled(BlockOf(s, side), s.tasks, BlockOf(s', side), s'.tasks)
            && BlockOf(s', Other(side)) == BlockOf(s, Other(side))
            && forall t :: t in s.tasks && s.tasks[t].place == Active ==> t in s'.tasks && s'.tasks[t] == s.tasks[t]
  {
    var b := BlockOf(s, side);
    assert b.queue != [] ==> b.queue[0] in b.queue;
  }

  /** An active task is not the one that is signalled. */
  lemma OthersSignalled<T>(s: State<T>, tasks: map<TaskId, Thread<T>>, side: Side, t: TaskId, b': Block, tasks': map<TaskId, Thread<T>>)
    requires Placed(s) && t in s.tasks && s.tasks[t].place == Active && t in tasks && tasks == s.tasks[t := tasks[t]]
    requires Signalled(BlockOf(s, side), tasks, b', tasks')
    ensures Signalled(BlockOf(s, side), s.tasks, b', tasks')
  {
    var q := BlockOf(s, side).queue;
    assert q != [] ==> q[0] in q;
  }

  lemma PushThenWake<T>(s: State<T>, t: TaskId, v: T, s2: State<T>)
    requires IsAt(s, t, WCredit(v))
    requires s2 == WithTask(s.(queue := s.queue + [v], pushed := s.pushed + [v]), t, s.tasks[t].(pc := Idle))
    ensures Leads(s, [Push(t), WakeReader(t)], Wake(s2, ReadSide))
  {
    var s1 := Exec(s, Push(t));
    SetTwice(s.tasks, t, s1.tasks[t], s.tasks[t].(pc := Idle));
    assert Exec(s1, WakeReader(t)) == Wake(WithTask(s1, t, s.tasks[t].(pc := Idle)), ReadSide);
    TwoLead(s, Push(t), WakeReader(t));
  }

  lemma SetTwice<K, V>(m: map<K, V>, k: K, a: V, b: V)
    ensures m[k := a][k := b] == m[k := b]
  {
  }

  /** A writer that holds a credit appends its value and signals a reader. */
  lemma PushAlone<T>(s: State<T>, t: TaskId, v: T) returns (end: State<T>)
    requires Placed(s) && IsAt(s, t, WCredit(v))
    ensures Leads(s, [Push(t), WakeReader(t)], end) && IsAt(end, t, Idle)
    ensures end.queue == s.queue + [v] && end.popped == s.popped && end.got == s.got && end.write == s.write
    ensures Signalled(s.read, s.tasks, end.read, end.tasks)
  {
    var idle := s.tasks[t].(pc := Idle);
    var s2 := WithTask(s.(queue := s.queue + [v], pushed := s.pushed + [v]), t, idle);
    TakeKeepsPlaced(s, t, WriteSide, idle);
    PushThenWake(s, t, v, s2);
    WakeSignals(s2, ReadSide);
    end := Wake(s2, ReadSide);
    OthersSignalled(s, s2.tasks, ReadSide, t, end.read, end.tasks);
  }

  /** A call of a write up to the point where it has its credit, has failed or is about to park. */
  ghost function WriteCall<T>(begin: Step<T>): seq<Step<T>> {
    if begin.TryPush? then [begin] else [begin, Step.Wait(begin.t)]
  }

  /** A write that begins gets a credit if and only if one is stored. Without one `TryPush` is over, with
      nothing changed, and the others are on their way to park on the write side. */
  lemma WriteBegins<T>(s: State<T>, begin: Step<T>) returns (end: State<T>)
    requires Begins(begin) && Writes(begin) && IsAt(s, begin.t, Idle)
    ensures Leads(s, WriteCall(begin), end) && SameValues(s, end) && end.read == s.read
    ensures if s.write.wakeup > 0 then IsAt(end, begin.t, WCredit(begin.v)) && end.write == s.write.(wakeup := s.write.wakeup - 1)
            else end.write == s.write && if begin.TryPush? then end == s
            else begin.t in end.tasks && end.tasks == s.tasks[begin.t := end.tasks[begin.t]]
                 && end.tasks[begin.t].place == Yielded(WriteSide)
  {
    var s1 := Exec(s, begin);
    if begin.TryPush? {
      end := s1;
      OneLeads(s, begin);
      assert s.tasks[begin.t := s.tasks[begin.t]] == s.tasks;
    } else {
      end := Exec(s1, Step.Wait(begin.t));
      TwoLead(s, begin, Step.Wait(begin.t));
    }
  }

  /** A read that begins signals a writer, and then waits, or looks, for an item. */
  lemma ReadBegins<T>(s: State<T>, t: TaskId, kind: ReadKind) returns (end: State<T>)
    requires Placed(s) && IsAt(s, t, Idle)
    ensures Leads(s, [BeginPop(t, kind), WakeWriter(t)], end) && SameValues(s, end) && end.read == s.read
    ensures IsAt(end, t, match kind case Blocking => RWait case Timed => RTimed case Try => RLoopRead)
    ensures Signalled(s.write, s.tasks, end.write, end.tasks)
  {
    var s1 := Exec(s, BeginPop(t, kind));
    TakeKeepsPlaced(s, t, ReadSide, s.tasks[t].(pc := AfterBegin(kind)));
    assert Started(s1, t).tasks == s.tasks[t := s.tasks[t].(pc := AfterBegin(kind))];
    WakeSignals(Started(s1, t), WriteSide);
    end := Exec(s1, WakeWriter(t));
    TwoLead(s, BeginPop(t, kind), WakeWriter(t));
    OthersSignalled(s, Started(s1, t).tasks, WriteSide, t, end.write, end.tasks);
  }

  /** It then takes the first value if and only if an item signal is stored. Otherwise a blocking or timed
      read is on its way to park, and a try-read is over, with its credit back, or yields to try again. */
  lemma ReadGoesOn<T>(s: State<T>, t: TaskId, pc: Pc<T>) returns (steps: seq<Step<T>>, end: State<T>)
    requires IsAt(s, t, pc) && (pc == RWait || pc == RTimed || pc == RLoopRead) && s.read.wakeup <= |s.queue|
    ensures Leads(s, steps, end) && |steps| <= 2 && forall i :: 0 <= i < |steps| ==> steps[i].t == t
    ensures if s.read.wakeup > 0 then
              && IsAt(end, t, Idle) && end.read == s.read.(wakeup := s.read.wakeup - 1) && end.write == s.write
              && t in end.got && s.queue == [end.got[t]] + end.queue
            else
              && SameValues(s, end) && end.read == s.read
              && if pc != RLoopRead then end.write == s.write && t in end.tasks && end.tasks[t] == s.tasks[t].(place := Yielded(ReadSide))
                 else if s.write.wakeup > 0 then IsAt(end, t, Idle) && end.write == s.write.(wakeup := s.write.wakeup - 1)
                 else IsAt(end, t, RYield) && end.write == s.write
  {
    var first := if pc == RLoopRead then LoopRead(t) else Step.Wait(t);
    var s1 := Exec(s, first);
    if s.read.wakeup == 0 && pc != RLoopRead {
      steps, end := [first], s1;
      OneLeads(s, first);
    } else {
      var second := if s.read.wakeup > 0 then Pop(t) else LoopWrite(t);
      steps, end := [first, second], Exec(s1, second);
      TwoLead(s, first, second);
    }
  }

  /** Whoever is on its way to park joins the end of the queue, or has the signal that came meanwhile. */
  lemma ParkAlone<T>(s: State<T>, t: TaskId)
    requires t in s.tasks && s.tasks[t].place.Yielded?
    ensures Enabled(s, Park(t))
    ensures var side := s.tasks[t].place.side; var b := BlockOf(s, side); var s' := Exec(s, Park(t));
            && SameValues(s, s') && BlockOf(s', Other(side)) == BlockOf(s, Other(side))
            && if b.wakeup > 0 then BlockOf(s', side) == b.(wakeup := b.wakeup - 1) && s'.tasks[t].place == Active
               else BlockOf(s', side) == b.(queue := b.queue + [t]) && s'.tasks[t] == s.tasks[t].(place := Parked(side))
  {
  }

  /** A timeout ends a timed write with nothing changed but the queue; a timed read takes its credit back
      and is over, or goes on as a try-read. */
  lemma ExpireAlone<T>(s: State<T>, t: TaskId, capacity: nat) returns (end: State<T>)
    requires Inv(s, capacity) && t in s.tasks && s.tasks[t].place.Parked? && (s.tasks[t].pc.WTimed? || s.tasks[t].pc.RTimed?)
    ensures if s.tasks[t].pc.WTimed? then
              Leads(s, [Expire(t)], end) && IsAt(end, t, Idle) && end.write.wakeup == s.write.wakeup
            else
              && Leads(s, [Expire(t), Recheck(t)], end)
              && if s.write.wakeup > 0 then IsAt(end, t, Idle) && end.write.wakeup == s.write.wakeup - 1
                 else IsAt(end, t, RLoopRead) && end.write.wakeup == 0
    ensures SameValues(s, end) && t !in end.write.queue && t !in end.read.queue
  {
    ExpireKeepsPlaced(s, t);
    var s1 := Exec(s, Expire(t));
    if s.tasks[t].pc.WTimed? {
      end := s1;
      OneLeads(s, Expire(t));
    } else {
      end := Exec(s1, Recheck(t));
      TwoLead(s, Expire(t), Recheck(t));
    }
  }

  /** Outside a coroutine a timed call reports a timeout whether it took a signal or not: the write is
      over, the read looks for its credit. */
  lemma OutsideAlone<T>(s: State<T>, step: Step<T>)
    requires Enabled(s, step) && (step.OutsideExpire? || step.OutsideTake?)
    requires step.OutsideTake? ==> BlockOf(s, SideOf(s.tasks[step.t].pc)).wakeup > 0
    ensures IsAt(Exec(s, step), step.t, if s.tasks[step.t].pc.WTimed? then Idle else RRecheck)
    ensures SameValues(s, Exec(s, step))
    ensures var side := SideOf(s.tasks[step.t].pc);
            BlockOf(Exec(s, step), side).wakeup == BlockOf(s, side).wakeup - One(step.OutsideTake?)
  {
  }
}
