/** The reader/writer lock seen by its callers: which call a task is in, and what a call does that nobody
    disturbs. */
module RWMutexCalls {
  import opened Commons
  import opened BlockObjects
  import opened RWMutexes
  import C = Counting

  // ---- the call a task is in ----

  predicate Begins(step: Step) { step.BeginRead? || step.BeginWrite? || step.TryLock? }

  /** The last call that task `t` began among the first `i` steps. */
  ghost function CallOf(steps: seq<Step>, t: TaskId, i: nat): Option<Step>
    requires i <= |steps|
  {
    if i == 0 then None
    else if Begins(steps[i - 1]) && steps[i - 1].t == t then Some(steps[i - 1])
    else CallOf(steps, t, i - 1)
  }

  /** The places a call passes through: each of the four has its own. */
  predicate InCall(pc: Pc, call: Option<Step>) {
    match pc
    case Out => true
    case RInc(try) => call.Some? && call.value.BeginRead? && call.value.try == try
    case RCheck(try) => call.Some? && call.value.BeginRead? && call.value.try == try
    case RBack(try) => call.Some? && call.value.BeginRead? && call.value.try == try
    case RYield => call.Some? && call.value.BeginRead? && !call.value.try
    case RHeld => call.Some? && call.value.BeginRead?
    case WTryCheck => call.Some? && call.value.TryLock?
    case WTryBack => call.Some? && call.value.TryLock?
    case WHeld => call.Some? && !call.value.BeginRead?
    case _ => call.Some? && call.value.BeginWrite?
  }

  predicate Follows(s: State, t: TaskId, call: Option<Step>) { t in s.tasks ==> InCall(s.tasks[t].pc, call) }

  function CallAfter(step: Step, t: TaskId, call: Option<Step>): Option<Step> {
    if Begins(step) && step.t == t then Some(step) else call
  }

  lemma UnlockFollows(s: State, u: TaskId, t: TaskId, call: Option<Step>)
    requires u in s.tasks && Follows(s, t, call)
    ensures Follows(Unlock(s, u), t, call)
  {
  }

  lemma StepFollows(s: State, step: Step, t: TaskId, call: Option<Step>)
    requires Enabled(s, step) && Follows(s, t, call)
    ensures Follows(Exec(s, step), t, CallAfter(step, t, call))
  {
    if step.TryBack? || step.WriteUnlock? {
      UnlockFollows(s, step.t, t, call);
    }
  }

  /** A task is always at a place of the call that it began: a try-lock never waits, and a blocking read
      that finds the mutex locked never gives up. */
  lemma {:induction false} CallsAreFollowed(run: seq<State>, steps: seq<Step>, t: TaskId, i: nat)
    requires IsRun(run, steps) && i < |run|
    ensures Follows(run[i], t, CallOf(steps, t, i))
  {
    if i > 0 {
      CallsAreFollowed(run, steps, t, i - 1);
      StepFollows(run[i - 1], steps[i - 1], t, CallOf(steps, t, i - 1));
    }
  }

  // ---- calls that nobody disturbs ----

  predicate IsAt(s: State, t: TaskId, pc: Pc) { t in s.tasks && s.tasks[t].place.Active? && s.tasks[t].pc == pc }

  /** Only this task moved. */
  predicate Moved(s: State, s': State, t: TaskId, pc: Pc) { IsAt(s', t, pc) && s'.tasks == s.tasks[t := s'.tasks[t]] }

  ghost predicate Leads(s: State, steps: seq<Step>, end: State)
    decreases |steps|
  {
    if steps == [] then s == end else Enabled(s, steps[0]) && Leads(Exec(s, steps[0]), steps[1..], end)
  }

  lemma ThreeLead(s: State, a: Step, b: Step, c: Step)
    requires Enabled(s, a) && Enabled(Exec(s, a), b) && Enabled(Exec(Exec(s, a), b), c)
    ensures Leads(s, [a, b, c], Exec(Exec(Exec(s, a), b), c))
  {
    var s2 := Exec(Exec(s, a), b);
    assert [a, b, c][1..] == [b, c] && [b, c][1..] == [c] && [c][1..] == [];
    assert Leads(s2, [c], Exec(s2, c));
    assert Leads(Exec(s, a), [b, c], Exec(s2, c));
  }

  lemma FourLead(s: State, a: Step, b: Step, c: Step, d: Step)
    requires Enabled(s, a) && Enabled(Exec(s, a), b) && Enabled(Exec(Exec(s, a), b), c)
    requires Enabled(Exec(Exec(Exec(s, a), b), c), d)
    ensures Leads(s, [a, b, c, d], Exec(Exec(Exec(Exec(s, a), b), c), d))
  {
    ThreeLead(Exec(s, a), b, c, d);
    assert [a, b, c, d][1..] == [b, c, d];
  }

  /** While the mutex is free a read, blocking or not, is let in and counted. */
  lemma ReadEnters(s: State, t: TaskId, try: bool) returns (end: State)
    requires IsAt(s, t, Out) && s.mtx.wakeup > 0
    ensures Leads(s, [BeginRead(t, try), Inc(t), Check(t)], end)
    ensures Moved(s, end, t, RHeld) && end.readers == s.readers + 1 && end.mtx == s.mtx
  {
    end := Exec(Exec(Exec(s, BeginRead(t, try)), Inc(t)), Check(t));
    ThreeLead(s, BeginRead(t, try), Inc(t), Check(t));
  }

  /** While it is locked a try-read is over and nothing has changed; a blocking one goes round. */
  lemma ReadRefused(s: State, t: TaskId, try: bool) returns (end: State)
    requires IsAt(s, t, Out) && s.mtx.wakeup == 0
    ensures Leads(s, [BeginRead(t, try), Inc(t), Check(t), Dec(t)], end)
    ensures Moved(s, end, t, if try then Out else RYield) && end.readers == s.readers && end.mtx == s.mtx
  {
    end := Exec(Exec(Exec(Exec(s, BeginRead(t, try)), Inc(t)), Check(t)), Dec(t));
    FourLead(s, BeginRead(t, try), Inc(t), Check(t), Dec(t));
  }

  /** Going round, it is let in as soon as it looks at a free mutex. */
  lemma ReadRetries(s: State, t: TaskId) returns (end: State)
    requires IsAt(s, t, RYield) && !s.tasks[t].stale && s.mtx.wakeup > 0
    ensures Leads(s, [Yield(t), Inc(t), Check(t)], end)
    ensures Moved(s, end, t, RHeld) && end.readers == s.readers + 1 && end.mtx == s.mtx
  {
    end := Exec(Exec(Exec(s, Yield(t)), Inc(t)), Check(t));
    ThreeLead(s, Yield(t), Inc(t), Check(t));
  }

  /** With the mutex free and no reader, a write is let in, blocking or not. */
  lemma WriteEnters(s: State, t: TaskId) returns (end: State)
    requires IsAt(s, t, Out) && s.mtx.wakeup > 0 && s.readers == 0
    ensures Leads(s, [BeginWrite(t), Lock(t), Look(t)], end)
    ensures Moved(s, end, t, WHeld) && end.readers == 0 && end.mtx == s.mtx.(wakeup := s.mtx.wakeup - 1)
    ensures var tried := Exec(s, TryLock(t)); Enabled(tried, Look(t)) && Moved(s, Exec(tried, Look(t)), t, WHeld)
  {
    end := Exec(Exec(Exec(s, BeginWrite(t)), Lock(t)), Look(t));
    ThreeLead(s, BeginWrite(t), Lock(t), Look(t));
  }

  /** With a reader inside, a try-write gives the mutex back and is over; a blocking one keeps it and looks
      again, until the readers have left. */
  lemma WriteMeetsReaders(s: State, t: TaskId) returns (end: State)
    requires Inv(s) && IsAt(s, t, Out) && s.mtx.wakeup > 0 && s.readers > 0
    ensures Leads(s, [TryLock(t), Look(t), TryBack(t)], end) && Moved(s, end, t, Out)
    ensures end.mtx == s.mtx && end.readers == s.readers
    ensures var spun := Exec(Exec(Exec(s, BeginWrite(t)), Lock(t)), Look(t)); Moved(s, spun, t, WYield) && spun.mtx.wakeup == 0
  {
    end := Exec(Exec(Exec(s, TryLock(t)), Look(t)), TryBack(t));
    ThreeLead(s, TryLock(t), Look(t), TryBack(t));
  }

  lemma WriteSpins(s: State, t: TaskId)
    requires IsAt(s, t, WYield) && !s.tasks[t].stale
    ensures var s' := Exec(s, Yield(t));
            Enabled(s', Look(t)) && Moved(s, Exec(s', Look(t)), t, if s.readers == 0 then WHeld else WYield)
  {
  }

  /** A try-write on a locked mutex is over at once, and a blocking one is on its way to park. */
  lemma WriteRefused(s: State, t: TaskId)
    requires IsAt(s, t, Out) && s.mtx.wakeup == 0
    ensures Exec(s, TryLock(t)) == s
    ensures var s' := Exec(Exec(s, BeginWrite(t)), Lock(t));
            s'.mtx == s.mtx && t in s'.tasks && s'.tasks[t].pc.WWait? && s'.tasks[t].place.Yielded?
  {
  }

  /** Parked, it owns the mutex when an unlock gives it on, and then looks for readers. */
  lemma UnlockHandsOver(s: State, t: TaskId)
    requires Inv(s) && Enabled(s, WriteUnlock(t))
    ensures var s' := Exec(s, WriteUnlock(t));
            && IsAt(s', t, Out)
            && if s.mtx.queue == [] then s'.mtx == s.mtx.(wakeup := 1)
               else
                 var u := s.mtx.queue[0];
                 && s'.mtx == s.mtx.(queue := s.mtx.queue[1..]) && u in s.tasks
                 && IsAt(s', u, if s.tasks[u].pc.WWait? then WSpin else s.tasks[u].pc)
  {
    WriterOwns(s, t);
    assert s.mtx.queue != [] ==> s.mtx.queue[0] in s.mtx.queue;
  }

  lemma WriterOwns(s: State, t: TaskId)
    requires Inv(s) && Enabled(s, WriteUnlock(t))
    ensures s.mtx.wakeup == 0
  {
    C.CountMember(s.tasks, t, Owns);
  }

  /** A reader that leaves is no longer counted. */
  lemma ReadLeaves(s: State, t: TaskId)
    requires Enabled(s, ReadUnlock(t))
    ensures var s' := Exec(s, ReadUnlock(t)); Moved(s, s', t, Out) && s'.readers == s.readers - 1 && s'.mtx == s.mtx
  {
  }
}
