/** Cancellable timers. The manager's sections under its lock are functions on the two deadline lines;
    the timers' own sections, under each timer's function lock, interleave with them in any order. */
module Timers {
  import opened Commons
  import opened BlockObjects

  datatype Clock = System | Steady

  datatype Entry = Entry(key: int, id: TimerId)

  /** The two multimaps, equal keys in insertion order, and each timer's token state. */
  datatype Mgr = Mgr(system: seq<Entry>, steady: seq<Entry>, token: map<TimerId, Option<Clock>>)

  function Line(m: Mgr, c: Clock): seq<Entry> { if c.System? then m.system else m.steady }

  function Other(c: Clock): Clock { if c.System? then Steady else System }

  function SetLine(m: Mgr, c: Clock, line: seq<Entry>): Mgr {
    if c.System? then m.(system := line) else m.(steady := line)
  }

  function IdsOf(line: seq<Entry>): (r: seq<TimerId>)
    ensures |r| == |line| && forall i :: 0 <= i < |line| ==> r[i] == line[i].id
  {
    seq(|line|, i requires 0 <= i < |line| => line[i].id)
  }

  // ---- the manager ----

  /** Behind all entries whose key is not greater. */
  function Insert(line: seq<Entry>, e: Entry): (r: seq<Entry>)
    ensures |r| == |line| + 1
  {
    if line == [] || line[|line| - 1].key <= e.key then line + [e]
    else Insert(line[..|line| - 1], e) + [line[|line| - 1]]
  }

  /** Without the entry of this timer. */
  function Remove(line: seq<Entry>, id: TimerId): seq<Entry> {
    if line == [] then [] else if line[0].id == id then line[1..] else [line[0]] + Remove(line[1..], id)
  }

  function Added(m: Mgr, c: Clock, key: int, id: TimerId): Mgr {
    SetLine(m, c, Insert(Line(m, c), Entry(key, id))).(token := m.token[id := Some(c)])
  }

  /** `__Cancel`: the token says which line to erase from. */
  function Erased(m: Mgr, id: TimerId): Mgr
    requires id in m.token
  {
    match m.token[id]
    case None => m
    case Some(c) => SetLine(m, c, Remove(Line(m, c), id)).(token := m.token[id := None])
  }

  /** How many leading entries are due, counting to `n` at most. */
  function Due(line: seq<Entry>, now: int, n: nat): (k: nat)
    ensures k <= n && k <= |line|
    ensures forall i :: 0 <= i < k ==> line[i].key <= now
    ensures k < n && k < |line| ==> line[k].key > now
  {
    if n == 0 || line == [] || line[0].key > now then 0 else 1 + Due(line[1..], now, n - 1)
  }

  function Cleared(token: map<TimerId, Option<Clock>>, ids: seq<TimerId>): map<TimerId, Option<Clock>> {
    map id | id in token :: if id in ids then None else token[id]
  }

  /** The due entries of one line leave it. */
  function Take(m: Mgr, c: Clock, now: int, n: nat): (Mgr, seq<Entry>) {
    var line := Line(m, c);
    var k := Due(line, now, n);
    (SetLine(m, c, line[k..]).(token := Cleared(m.token, IdsOf(line[..k]))), line[..k])
  }

  /** `GetExpired`: the system line first; both lines share the bound. */
  function Expired(m: Mgr, systemNow: int, steadyNow: int, n: nat): (Mgr, seq<Entry>, seq<Entry>) {
    var (m1, first) := Take(m, System, systemNow, n);
    assert |first| <= n;
    var (m2, second) := Take(m1, Steady, steadyNow, n - |first|);
    (m2, first, second)
  }

  // ---- the token names the line that holds the timer ----

  predicate Sorted(line: seq<Entry>) {
    forall i, j :: 0 <= i < j < |line| ==> line[i].key <= line[j].key
  }

  predicate LineOk(c: Clock, line: seq<Entry>, token: map<TimerId, Option<Clock>>) {
    && Sorted(line) && NoDup(IdsOf(line))
    && (forall id :: id in IdsOf(line) ==> id in token && token[id] == Some(c))
    && (forall id :: id in token && token[id] == Some(c) ==> id in IdsOf(line))
  }

  predicate MgrOk(m: Mgr) {
    LineOk(System, m.system, m.token) && LineOk(Steady, m.steady, m.token)
  }

  lemma {:induction false} InsertIs(line: seq<Entry>, e: Entry)
    requires Sorted(line)
    ensures Sorted(Insert(line, e))
    ensures forall x :: x in Insert(line, e) <==> x in line || x == e
    ensures e.id !in IdsOf(line) && NoDup(IdsOf(line)) ==> NoDup(IdsOf(Insert(line, e)))
    ensures forall id :: id in IdsOf(Insert(line, e)) <==> id in IdsOf(line) || id == e.id
  {
    var k := InsertCuts(line, e);
    SortedInsert(line, k, e);
    MembersInsert(line, k, e);
    IdsInsert(line, k, e);
    MembersInsert(IdsOf(line), k, e.id);
    NoDupInsert(IdsOf(line), k, e.id);
  }

  lemma SortedInsert(line: seq<Entry>, k: nat, e: Entry)
    requires Sorted(line) && k <= |line|
    requires (forall i :: 0 <= i < k ==> line[i].key <= e.key) && (forall i :: k <= i < |line| ==> e.key < line[i].key)
    ensures Sorted(line[..k] + [e] + line[k..])
  {
    var r := line[..k] + [e] + line[k..];
    assert forall i :: 0 <= i < |r| ==> r[i] == if i < k then line[i] else if i == k then e else line[i - 1];
  }

  lemma MembersInsert<T>(s: seq<T>, k: nat, x: T)
    requires k <= |s|
    ensures forall y :: y in s[..k] + [x] + s[k..] <==> y in s || y == x
  {
    assert s == s[..k] + s[k..];
  }

  lemma IdsInsert(line: seq<Entry>, k: nat, e: Entry)
    requires k <= |line|
    ensures IdsOf(line[..k] + [e] + line[k..]) == IdsOf(line)[..k] + [e.id] + IdsOf(line)[k..]
  {
  }

  lemma NoDupInsert(ids: seq<TimerId>, k: nat, id: TimerId)
    requires k <= |ids|
    ensures id !in ids && NoDup(ids) ==> NoDup(ids[..k] + [id] + ids[k..])
  {
    var r := ids[..k] + [id] + ids[k..];
    assert forall i :: 0 <= i < |ids| ==> ids[i] in ids;
    assert forall i :: 0 <= i < |r| ==> r[i] == if i < k then ids[i] else if i == k then id else ids[i - 1];
  }

  /** Where the new entry goes. */
  lemma {:induction false} InsertCuts(line: seq<Entry>, e: Entry) returns (k: nat)
    requires Sorted(line)
    ensures k <= |line| && Insert(line, e) == line[..k] + [e] + line[k..]
    ensures forall i :: 0 <= i < k ==> line[i].key <= e.key
    ensures forall i :: k <= i < |line| ==> e.key < line[i].key
  {
    if line == [] || line[|line| - 1].key <= e.key {
      k := |line|;
    } else {
      var before, last := line[..|line| - 1], line[|line| - 1];
      k := InsertCuts(before, e);
      assert line == before + [last];
      assert (before[..k] + [e] + before[k..]) + [last] == line[..k] + [e] + line[k..];
    }
  }

  lemma {:induction false} RemoveIs(line: seq<Entry>, id: TimerId) returns (k: nat)
    requires id in IdsOf(line)
    ensures k < |line| && line[k].id == id && Remove(line, id) == line[..k] + line[k + 1..]
  {
    if line[0].id == id {
      k := 0;
    } else {
      var i :| 0 <= i < |line| && IdsOf(line)[i] == id;
      assert IdsOf(line[1..])[i - 1] == id;
      k := RemoveIs(line[1..], id);
      k := k + 1;
      assert line[..k] == [line[0]] + line[1..][..k - 1];
    }
  }

  /** Erasing through a token always finds the entry: the iterator is never stale. */
  lemma EraseFinds(m: Mgr, id: TimerId)
    requires MgrOk(m) && id in m.token && m.token[id].Some?
    ensures id in IdsOf(Line(m, m.token[id].value))
    ensures |Line(Erased(m, id), m.token[id].value)| == |Line(m, m.token[id].value)| - 1
    ensures id !in IdsOf(Erased(m, id).system) && id !in IdsOf(Erased(m, id).steady)
    ensures MgrOk(Erased(m, id))
  {
    var c := m.token[id].value;
    var other := Other(c);
    var line := Line(m, c);
    var k := RemoveIs(line, id);
    LineWithout(c, line, k, m.token);
    OtherLine(other, Line(m, other), m.token, id);
  }

  lemma LineWithout(c: Clock, line: seq<Entry>, k: nat, token: map<TimerId, Option<Clock>>)
    requires LineOk(c, line, token) && k < |line|
    ensures LineOk(c, line[..k] + line[k + 1..], token[line[k].id := None])
    ensures line[k].id !in IdsOf(line[..k] + line[k + 1..])
  {
    var r := line[..k] + line[k + 1..];
    assert IdsOf(r) == IdsOf(line)[..k] + IdsOf(line)[k + 1..];
  }

  lemma OtherLine(c: Clock, line: seq<Entry>, token: map<TimerId, Option<Clock>>, id: TimerId)
    requires LineOk(c, line, token) && (id in token ==> token[id] != Some(c))
    ensures LineOk(c, line, token[id := None])
    ensures id !in IdsOf(line)
  {
  }

  lemma AddedKeeps(m: Mgr, c: Clock, key: int, id: TimerId)
    requires MgrOk(m) && id !in m.token
    ensures MgrOk(Added(m, c, key, id))
  {
    var other := Other(c);
    var line := Line(m, c);
    assert id !in IdsOf(line) && id !in IdsOf(Line(m, other));
    InsertIs(line, Entry(key, id));
  }

  lemma TakeKeeps(m: Mgr, c: Clock, now: int, n: nat)
    requires MgrOk(m)
    ensures MgrOk(Take(m, c, now, n).0) && Take(m, c, now, n).0.token.Keys == m.token.Keys
    ensures var (m', taken) := Take(m, c, now, n);
            forall i :: 0 <= i < |taken| ==> m'.token[taken[i].id].None?
  {
    var other := Other(c);
    var line := Line(m, c);
    var k := Due(line, now, n);
    LineBehind(c, line, k, m.token);
    LineBeside(other, Line(m, other), m.token, IdsOf(line[..k]));
  }

  lemma LineBehind(c: Clock, line: seq<Entry>, k: nat, token: map<TimerId, Option<Clock>>)
    requires LineOk(c, line, token) && k <= |line|
    ensures LineOk(c, line[k..], Cleared(token, IdsOf(line[..k])))
    ensures forall i :: 0 <= i < k ==> line[i].id in token
  {
    var ids := IdsOf(line);
    assert IdsOf(line[..k]) == ids[..k] && IdsOf(line[k..]) == ids[k..];
    IdsApart(ids, k);
    assert forall i :: 0 <= i < k ==> line[i].id == ids[i] && ids[i] in ids;
  }

  lemma IdsApart(ids: seq<TimerId>, k: nat)
    requires NoDup(ids) && k <= |ids|
    ensures NoDup(ids[k..]) && forall id :: id in ids <==> id in ids[..k] || id in ids[k..]
    ensures forall id :: id in ids[k..] ==> id !in ids[..k]
  {
    forall i, j | 0 <= i < k && 0 <= j < |ids| - k ensures ids[..k][i] != ids[k..][j] {
      assert ids[i] != ids[k + j];
    }
    assert ids == ids[..k] + ids[k..];
  }

  lemma LineBeside(c: Clock, line: seq<Entry>, token: map<TimerId, Option<Clock>>, ids: seq<TimerId>)
    requires LineOk(c, line, token) && forall id :: id in ids ==> id in token && token[id] != Some(c)
    ensures LineOk(c, line, Cleared(token, ids))
  {
  }

  lemma SplitsAt(line: seq<Entry>, k: nat, now: int, n: nat)
    requires Sorted(line) && k <= |line| && (k < n && k < |line| ==> line[k].key > now)
    ensures line[..k] + line[k..] == line && Sorted(line[..k])
    ensures k < n ==> forall i :: 0 <= i < |line[k..]| ==> line[k..][i].key > now
  {
    assert forall i :: k < i < |line| ==> line[k].key <= line[i].key;
  }

  /** One line after its due entries left: the rest in place, the other line untouched. */
  lemma TakeIs(m: Mgr, c: Clock, now: int, n: nat)
    requires MgrOk(m)
    ensures var (m', taken) := Take(m, c, now, n); var other := Other(c);
            && taken + Line(m', c) == Line(m, c) && Line(m', other) == Line(m, other)
            && |taken| <= n && Sorted(taken) && (forall i :: 0 <= i < |taken| ==> taken[i].key <= now)
            && (|taken| < n ==> forall i :: 0 <= i < |Line(m', c)| ==> Line(m', c)[i].key > now)
  {
    SplitsAt(Line(m, c), Due(Line(m, c), now, n), now, n);
  }

  /** What `GetExpired` hands out: at most `n` timers in all, every one of them due, in the order of
      their deadlines on each clock, and if fewer than `n` then none that is due stays behind. */
  lemma ExpiredAreDue(m: Mgr, systemNow: int, steadyNow: int, n: nat)
    requires MgrOk(m)
    ensures var (m', first, second) := Expired(m, systemNow, steadyNow, n);
            && MgrOk(m') && first + m'.system == m.system && second + m'.steady == m.steady
            && |first| + |second| <= n && Sorted(first) && Sorted(second)
            && (forall i :: 0 <= i < |first| ==> first[i].key <= systemNow)
            && (forall i :: 0 <= i < |second| ==> second[i].key <= steadyNow)
            && (|first| + |second| < n ==>
                  && (forall i :: 0 <= i < |m'.system| ==> m'.system[i].key > systemNow)
                  && (forall i :: 0 <= i < |m'.steady| ==> m'.steady[i].key > steadyNow))
  {
    var m1, first := TwoTakes(m, systemNow, steadyNow, n);
    var (m2, second) := Take(m1, Steady, steadyNow, n - |first|);
    TakeTook(m, System, systemNow, n);
    TakeTook(m1, Steady, steadyNow, n - |first|);
    BothTook(m, m1, m2, systemNow, steadyNow, n, first, second);
  }

  /** All due entries of a line were taken, up to the bound. */
  ghost predicate Took(m: Mgr, m': Mgr, c: Clock, now: int, n: nat, taken: seq<Entry>) {
    && MgrOk(m') && taken + Line(m', c) == Line(m, c) && Line(m', Other(c)) == Line(m, Other(c))
    && |taken| <= n && Sorted(taken) && (forall i :: 0 <= i < |taken| ==> taken[i].key <= now)
    && (|taken| < n ==> forall i :: 0 <= i < |Line(m', c)| ==> Line(m', c)[i].key > now)
  }

  lemma TakeTook(m: Mgr, c: Clock, now: int, n: nat)
    requires MgrOk(m)
    ensures Took(m, Take(m, c, now, n).0, c, now, n, Take(m, c, now, n).1)
  {
    TakeKeeps(m, c, now, n);
    TakeIs(m, c, now, n);
  }

  lemma BothTook(m: Mgr, m1: Mgr, m2: Mgr, systemNow: int, steadyNow: int, n: nat, first: seq<Entry>, second: seq<Entry>)
    requires Took(m, m1, System, systemNow, n, first) && Took(m1, m2, Steady, steadyNow, n - |first|, second)
    ensures MgrOk(m2) && first + m2.system == m.system && second + m2.steady == m.steady
    ensures |first| + |second| <= n && Sorted(first) && Sorted(second)
    ensures forall i :: 0 <= i < |first| ==> first[i].key <= systemNow
    ensures forall i :: 0 <= i < |second| ==> second[i].key <= steadyNow
    ensures |first| + |second| < n ==>
      && (forall i :: 0 <= i < |m2.system| ==> m2.system[i].key > systemNow)
      && (forall i :: 0 <= i < |m2.steady| ==> m2.steady[i].key > steadyNow)
  {
  }

  // ---- the timers ----

  /** `running` holds the function lock during the callback. `runs` counts callbacks begun, `cancelled`
      says that a cancel returned true, and `erasing` that its `__Cancel` is still to come. */
  datatype Timer = Timer(active: bool, running: bool, runs: nat, cancelled: bool, erasing: bool)

  /** `handed` is the history of the timers that `GetExpired` gave out. */
  datatype State = State(mgr: Mgr, timers: map<TimerId, Timer>, handed: seq<TimerId>)

  datatype Step =
    | Add(c: Clock, key: int, id: TimerId)
    | Call(id: TimerId)
    | EndCall(id: TimerId)
    | Cancel(id: TimerId)
    | BlockCancel(id: TimerId)
    | EraseEntry(id: TimerId)
    | Expire(systemNow: int, steadyNow: int, n: nat)

  function Init(): State { State(Mgr([], [], map[]), map[], []) }

  predicate Enabled(s: State, step: Step) {
    match step
    case Add(_, _, id) => id !in s.timers && id !in s.mgr.token
    case Call(id) => id in s.timers
    case EndCall(id) => id in s.timers && s.timers[id].running
    case Cancel(id) => id in s.timers
    case BlockCancel(id) => id in s.timers && !s.timers[id].running
    case EraseEntry(id) => id in s.timers && s.timers[id].erasing && id in s.mgr.token
    case Expire(_, _, _) => true
  }

  /** A cancel that finds the function lock free and the timer active succeeds. */
  predicate Cancellable(t: Timer) { !t.running && t.active }

  function Exec(s: State, step: Step): State
    requires Enabled(s, step)
  {
    match step
    case Add(c, key, id) =>
      s.(mgr := Added(s.mgr, c, key, id), timers := s.timers[id := Timer(true, false, 0, false, false)])
    case Call(id) =>
      var t := s.timers[id];
      if t.running || !t.active then s
      else s.(timers := s.timers[id := t.(active := false, running := true, runs := t.runs + 1)])
    case EndCall(id) => s.(timers := s.timers[id := s.timers[id].(running := false)])
    case Cancel(id) => CancelTimer(s, id)
    case BlockCancel(id) => CancelTimer(s, id)
    case EraseEntry(id) => s.(mgr := Erased(s.mgr, id), timers := s.timers[id := s.timers[id].(erasing := false)])
    case Expire(systemNow, steadyNow, n) =>
      var (m, first, second) := Expired(s.mgr, systemNow, steadyNow, n);
      s.(mgr := m, handed := s.handed + IdsOf(first) + IdsOf(second))
  }

  function CancelTimer(s: State, id: TimerId): State
    requires id in s.timers
  {
    var t := s.timers[id];
    if Cancellable(t) then s.(timers := s.timers[id := t.(active := false, cancelled := true, erasing := true)]) else s
  }

  /** A timer is active, or its callback has begun, or it was cancelled: exactly one of the three. */
  predicate TimerOk(t: Timer) {
    && (if t.active || t.cancelled then t.runs == 0 && !t.running else t.runs == 1)
    && !(t.active && t.cancelled)
    && (t.erasing ==> t.cancelled)
  }

  predicate Away(token: map<TimerId, Option<Clock>>, handed: seq<TimerId>) {
    NoDup(handed) && forall i :: 0 <= i < |handed| ==> handed[i] in token && token[handed[i]].None?
  }

  predicate Inv(s: State) {
    && MgrOk(s.mgr) && s.timers.Keys == s.mgr.token.Keys
    && (forall id :: id in s.timers ==> TimerOk(s.timers[id]))
    && Away(s.mgr.token, s.handed)
  }

  lemma StepKeepsInv(s: State, step: Step)
    requires Inv(s) && Enabled(s, step)
    ensures Inv(Exec(s, step))
  {
    match step
    case Add(c, key, id) => AddedKeeps(s.mgr, c, key, id);
    case EraseEntry(id) => if s.mgr.token[id].Some? { EraseFinds(s.mgr, id); }
    case Expire(systemNow, steadyNow, n) =>
      ExpiredOk(s.mgr, systemNow, steadyNow, n);
      ExpiredHands(s.mgr, s.handed, systemNow, steadyNow, n);
    case _ =>
  }

  lemma ExpiredOk(m: Mgr, systemNow: int, steadyNow: int, n: nat)
    requires MgrOk(m)
    ensures var m' := Expired(m, systemNow, steadyNow, n).0; MgrOk(m') && m'.token.Keys == m.token.Keys
  {
    ExpiredAreDue(m, systemNow, steadyNow, n);
    var m1, first := TwoTakes(m, systemNow, steadyNow, n);
    TakeKeys(m, System, systemNow, n);
    TakeKeys(m1, Steady, steadyNow, n - |first|);
  }

  lemma TakeKeys(m: Mgr, c: Clock, now: int, n: nat)
    ensures Take(m, c, now, n).0.token.Keys == m.token.Keys
  {
  }

  /** What is taken from the first line, and then from the second. */
  lemma TwoTakes(m: Mgr, systemNow: int, steadyNow: int, n: nat) returns (m1: Mgr, first: seq<Entry>)
    ensures (m1, first) == Take(m, System, systemNow, n) && |first| <= n
    ensures var (m2, second) := Take(m1, Steady, steadyNow, n - |first|);
            Expired(m, systemNow, steadyNow, n) == (m2, first, second)
  {
    m1, first := Take(m, System, systemNow, n).0, Take(m, System, systemNow, n).1;
  }

  lemma ExpiredHands(m: Mgr, handed: seq<TimerId>, systemNow: int, steadyNow: int, n: nat)
    requires MgrOk(m) && Away(m.token, handed)
    ensures var (m', first, second) := Expired(m, systemNow, steadyNow, n);
            Away(m'.token, handed + IdsOf(first) + IdsOf(second))
  {
    var m1, first := TwoTakes(m, systemNow, steadyNow, n);
    TakeTook(m, System, systemNow, n);
    TakeHands(m, System, systemNow, n, handed);
    TakeHands(m1, Steady, steadyNow, n - |first|, handed + IdsOf(first));
  }

  /** No timer is handed out twice. */
  lemma TakeHands(m: Mgr, c: Clock, now: int, n: nat, handed: seq<TimerId>)
    requires MgrOk(m) && Away(m.token, handed)
    ensures var (m', taken) := Take(m, c, now, n); Away(m'.token, handed + IdsOf(taken))
  {
    var line := Line(m, c);
    var (m', taken) := Take(m, c, now, n);
    var ids := IdsOf(taken);
    forall i | 0 <= i < |ids| ensures ids[i] in m.token && m.token[ids[i]] == Some(c) && ids[i] == IdsOf(line)[i] {
      assert IdsOf(line)[i] in IdsOf(line);
    }
    var all := handed + ids;
    forall i, j | 0 <= i < j < |all| ensures all[i] != all[j] {
      if i >= |handed| {
        assert IdsOf(line)[i - |handed|] != IdsOf(line)[j - |handed|];
      }
    }
  }

  ghost predicate IsRun(states: seq<State>, steps: seq<Step>) {
    && |states| == |steps| + 1 && states[0] == Init()
    && forall i :: 0 <= i < |steps| ==> Enabled(states[i], steps[i]) && states[i + 1] == Exec(states[i], steps[i])
  }

  lemma {:induction false} RunKeepsInv(states: seq<State>, steps: seq<Step>, k: nat)
    requires IsRun(states, steps) && k < |states|
    ensures Inv(states[k])
  {
    if k > 0 {
      RunKeepsInv(states, steps, k - 1);
      StepKeepsInv(states[k - 1], steps[k - 1]);
    }
  }

  /** Over any run a callback begins at most once, and a timer is handed out at most once. */
  lemma AtMostOnce(states: seq<State>, steps: seq<Step>, k: nat, id: TimerId)
    requires IsRun(states, steps) && k < |states| && id in states[k].timers
    ensures states[k].timers[id].runs <= 1
    ensures NoDup(states[k].handed)
  {
    RunKeepsInv(states, steps, k);
  }

  /** After a cancel that returned true the callback never begins. */
  lemma {:induction false} CancelledNeverRuns(states: seq<State>, steps: seq<Step>, i: nat, k: nat, id: TimerId)
    requires IsRun(states, steps) && i < k < |states|
    requires (steps[i] == Cancel(id) || steps[i] == BlockCancel(id)) && Cancellable(states[i].timers[id])
    ensures id in states[k].timers && states[k].timers[id].cancelled && states[k].timers[id].runs == 0
  {
    if k > i + 1 {
      CancelledNeverRuns(states, steps, i, k - 1, id);
      RunKeepsInv(states, steps, k - 1);
      StaysCancelled(states[k - 1], steps[k - 1], id);
    } else {
      CancelSucceeds(states[i], steps[i], id);
    }
    RunKeepsInv(states, steps, k);
    CancelledHasNotRun(states[k], id);
  }

  lemma CancelSucceeds(s: State, step: Step, id: TimerId)
    requires Enabled(s, step) && (step == Cancel(id) || step == BlockCancel(id)) && Cancellable(s.timers[id])
    ensures id in Exec(s, step).timers && Exec(s, step).timers[id].cancelled
  {
  }

  lemma CancelledHasNotRun(s: State, id: TimerId)
    requires Inv(s) && id in s.timers && s.timers[id].cancelled
    ensures s.timers[id].runs == 0
  {
  }

  lemma StaysCancelled(s: State, step: Step, id: TimerId)
    requires Inv(s) && Enabled(s, step) && id in s.timers && s.timers[id].cancelled
    ensures id in Exec(s, step).timers && Exec(s, step).timers[id].cancelled
  {
  }

  /** A cancel returns false only for a timer whose callback has begun or that was cancelled before. */
  lemma FailedCancel(states: seq<State>, steps: seq<Step>, k: nat, id: TimerId)
    requires IsRun(states, steps) && k < |states| && id in states[k].timers && !Cancellable(states[k].timers[id])
    ensures states[k].timers[id].runs == 1 || states[k].timers[id].cancelled
  {
    RunKeepsInv(states, steps, k);
  }

  /** In every reachable state `__Cancel` erases through a valid iterator or not at all. */
  lemma NeverStale(states: seq<State>, steps: seq<Step>, k: nat, id: TimerId)
    requires IsRun(states, steps) && k < |steps| && steps[k] == EraseEntry(id)
    ensures states[k].mgr.token[id].Some? ==> id in IdsOf(Line(states[k].mgr, states[k].mgr.token[id].value))
    ensures id !in IdsOf(states[k + 1].mgr.system) && id !in IdsOf(states[k + 1].mgr.steady)
  {
    RunKeepsInv(states, steps, k);
    if states[k].mgr.token[id].Some? {
      EraseFinds(states[k].mgr, id);
    }
  }

  /** A call runs the callback of a timer that was not cancelled, or finds that it has run. */
  lemma CallRuns(states: seq<State>, steps: seq<Step>, k: nat, id: TimerId)
    requires IsRun(states, steps) && k < |steps| && steps[k] == Call(id)
    ensures id in states[k + 1].timers && (states[k + 1].timers[id].runs == 1 <==> !states[k + 1].timers[id].cancelled)
    ensures Cancellable(states[k].timers[id]) ==> states[k + 1].timers[id].running
  {
    RunKeepsInv(states, steps, k);
    assert TimerOk(states[k].timers[id]);
  }

  // ---- what becomes of every timer ----

  /** The timer waits for its deadline, has been erased, or has been handed out. */
  ghost predicate Pending(s: State, c: Clock, key: int, id: TimerId) { Entry(key, id) in Line(s.mgr, c) && id !in s.handed }

  ghost predicate Erasure(s: State, id: TimerId) { id in s.mgr.token && s.mgr.token[id].None? && id !in s.handed }

  /** The step looks for expired timers when the deadline has passed. */
  predicate DueBy(step: Step, c: Clock, key: int) {
    step.Expire? && key <= if c.System? then step.systemNow else step.steadyNow
  }

  lemma {:induction false} RemoveKeepsOthers(line: seq<Entry>, id: TimerId, e: Entry)
    requires e in line && e.id != id
    ensures e in Remove(line, id)
  {
    if line[0].id == id {
      assert line == [line[0]] + line[1..];
    } else if e != line[0] {
      assert line == [line[0]] + line[1..];
      RemoveKeepsOthers(line[1..], id, e);
    }
  }

  lemma TakeSplits(m: Mgr, c: Clock, now: int, n: nat, d: Clock, e: Entry)
    requires e in Line(m, d)
    ensures var (m', taken) := Take(m, c, now, n); e in Line(m', d) || (c == d && e.key <= now && e.id in IdsOf(taken))
  {
    var line := Line(m, c);
    var k := Due(line, now, n);
    if c == d && e !in line[k..] {
      InFront(line, k, e, now);
    }
  }

  lemma InFront(line: seq<Entry>, k: nat, e: Entry, now: int)
    requires k <= |line| && e in line && e !in line[k..] && forall i :: 0 <= i < k ==> line[i].key <= now
    ensures e.key <= now && e.id in IdsOf(line[..k])
  {
    assert line == line[..k] + line[k..];
    assert e in line[..k];
    var i :| 0 <= i < k && line[..k][i] == e;
    assert line[i] == e && IdsOf(line[..k])[i] == e.id;
  }

  lemma ExpireFate(s: State, step: Step, c: Clock, key: int, id: TimerId)
    requires Inv(s) && Enabled(s, step) && step.Expire? && Pending(s, c, key, id)
    ensures var s' := Exec(s, step); Entry(key, id) in Line(s'.mgr, c) || (DueBy(step, c, key) && id in s'.handed)
  {
    ExpiredSplits(s.mgr, step.systemNow, step.steadyNow, step.n, c, Entry(key, id));
  }

  lemma ExpiredSplits(m: Mgr, systemNow: int, steadyNow: int, n: nat, c: Clock, e: Entry)
    requires e in Line(m, c)
    ensures var (m', first, second) := Expired(m, systemNow, steadyNow, n);
            || e in Line(m', c)
            || (e.key <= (if c.System? then systemNow else steadyNow) && (e.id in IdsOf(first) || e.id in IdsOf(second)))
  {
    var m1, first := TwoTakes(m, systemNow, steadyNow, n);
    TakeSplits(m, System, systemNow, n, c, e);
    if e in Line(m1, c) {
      TakeSplits(m1, Steady, steadyNow, n - |first|, c, e);
    }
  }

  lemma AddFate(s: State, step: Step, c: Clock, key: int, id: TimerId)
    requires Inv(s) && Enabled(s, step) && step.Add? && Pending(s, c, key, id)
    ensures Pending(Exec(s, step), c, key, id)
  {
    if step.c == c {
      InsertIs(Line(s.mgr, c), Entry(step.key, step.id));
    }
  }

  lemma EraseFate(s: State, step: Step, c: Clock, key: int, id: TimerId)
    requires Inv(s) && Enabled(s, step) && step.EraseEntry? && Pending(s, c, key, id)
    ensures if step.id == id then Erasure(Exec(s, step), id) else Pending(Exec(s, step), c, key, id)
  {
    var line := Line(s.mgr, c);
    if step.id != id {
      RemoveKeepsOthers(line, step.id, Entry(key, id));
    } else {
      var i :| 0 <= i < |line| && line[i] == Entry(key, id);
      assert IdsOf(line)[i] == id;
    }
  }

  /** Whoever is in a line is not handed out yet. */
  lemma NotBoth(s: State, c: Clock, key: int, id: TimerId)
    requires Inv(s) && Entry(key, id) in Line(s.mgr, c)
    ensures id !in s.handed
  {
    var line := Line(s.mgr, c);
    var i :| 0 <= i < |line| && line[i] == Entry(key, id);
    assert IdsOf(line)[i] == id;
  }

  lemma PendingStep(s: State, step: Step, c: Clock, key: int, id: TimerId)
    requires Inv(s) && Enabled(s, step) && Pending(s, c, key, id)
    ensures var s' := Exec(s, step);
            || Pending(s', c, key, id)
            || (step == EraseEntry(id) && Erasure(s', id))
            || (DueBy(step, c, key) && id in s'.handed)
  {
    match step
    case Add(_, _, _) => AddFate(s, step, c, key, id);
    case EraseEntry(_) => EraseFate(s, step, c, key, id);
    case Expire(_, _, _) =>
      ExpireFate(s, step, c, key, id);
      StepKeepsInv(s, step);
      if Entry(key, id) in Line(Exec(s, step).mgr, c) {
        NotBoth(Exec(s, step), c, key, id);
      }
    case _ =>
  }

  /** An erased timer is never handed out. */
  lemma ErasureStep(s: State, step: Step, id: TimerId)
    requires Inv(s) && Enabled(s, step) && Erasure(s, id)
    ensures Erasure(Exec(s, step), id)
  {
    if step.Expire? {
      NoneIsNowhere(s.mgr, id);
      ExpireTakesOnly(s.mgr, step.systemNow, step.steadyNow, step.n, id);
    }
  }

  lemma ExpireTakesOnly(m: Mgr, systemNow: int, steadyNow: int, n: nat, id: TimerId)
    requires MgrOk(m) && id !in IdsOf(m.system) && id !in IdsOf(m.steady) && id in m.token && m.token[id].None?
    ensures var (m', first, second) := Expired(m, systemNow, steadyNow, n);
            id !in IdsOf(first) && id !in IdsOf(second) && id in m'.token && m'.token[id].None?
  {
    var m1, first := TwoTakes(m, systemNow, steadyNow, n);
    TakeTakesOnly(m, System, systemNow, n, id);
    TakeTakesOnly(m1, Steady, steadyNow, n - |first|, id);
  }

  lemma TakeTakesOnly(m: Mgr, c: Clock, now: int, n: nat, id: TimerId)
    requires id !in IdsOf(Line(m, c)) && id in m.token && m.token[id].None?
    ensures var (m', taken) := Take(m, c, now, n);
            id !in IdsOf(taken) && id in m'.token && m'.token[id].None? && Line(m', Other(c)) == Line(m, Other(c))
  {
    var line := Line(m, c);
    var k := Due(line, now, n);
    assert forall i :: 0 <= i < k ==> IdsOf(line[..k])[i] == IdsOf(line)[i] && IdsOf(line)[i] in IdsOf(line);
  }

  ghost predicate WasErased(steps: seq<Step>, i: nat, k: nat, id: TimerId) {
    exists j :: i < j < k && j < |steps| && steps[j] == EraseEntry(id)
  }

  ghost predicate WasDue(steps: seq<Step>, i: nat, k: nat, c: Clock, key: int) {
    exists j :: i < j < k && j < |steps| && DueBy(steps[j], c, key)
  }

  ghost predicate Fate(states: seq<State>, steps: seq<Step>, i: nat, k: nat, a: Step)
    requires k < |states| && a.Add?
  {
    || Pending(states[k], a.c, a.key, a.id)
    || (Erasure(states[k], a.id) && WasErased(steps, i, k, a.id))
    || (a.id in states[k].handed && WasDue(steps, i, k, a.c, a.key))
  }

  lemma Begun(s: State, a: Step)
    requires Inv(s) && Enabled(s, a) && a.Add?
    ensures Pending(Exec(s, a), a.c, a.key, a.id)
  {
    InsertIs(Line(s.mgr, a.c), Entry(a.key, a.id));
    assert a.id !in s.handed;
  }

  lemma FateGoesOn(states: seq<State>, steps: seq<Step>, i: nat, k: nat, a: Step)
    requires IsRun(states, steps) && i < k < |steps| && a.Add? && Inv(states[k]) && Fate(states, steps, i, k, a)
    ensures Fate(states, steps, i, k + 1, a)
  {
    FateStep(states[k], steps[k], a);
    if WasErased(steps, i, k, a.id) || steps[k] == EraseEntry(a.id) {
      assert WasErased(steps, i, k + 1, a.id);
    }
    if WasDue(steps, i, k, a.c, a.key) || DueBy(steps[k], a.c, a.key) {
      assert WasDue(steps, i, k + 1, a.c, a.key);
    }
  }

  /** No timer is lost and none fires early: at any time after it was added a timer waits with its deadline,
      or a cancel erased it, or it was handed out after its deadline had passed. */
  lemma {:induction false} TimerFate(states: seq<State>, steps: seq<Step>, i: nat, k: nat)
    requires IsRun(states, steps) && i < k < |states| && steps[i].Add?
    ensures Fate(states, steps, i, k, steps[i])
  {
    RunKeepsInv(states, steps, k - 1);
    if k == i + 1 {
      Begun(states[i], steps[i]);
    } else {
      TimerFate(states, steps, i, k - 1);
      FateGoesOn(states, steps, i, k - 1, steps[i]);
    }
  }

  lemma FateStep(s: State, step: Step, a: Step)
    requires Inv(s) && Enabled(s, step) && a.Add?
    ensures Pending(s, a.c, a.key, a.id) ==>
      var s' := Exec(s, step);
      || Pending(s', a.c, a.key, a.id) || (step == EraseEntry(a.id) && Erasure(s', a.id))
      || (DueBy(step, a.c, a.key) && a.id in s'.handed)
    ensures Erasure(s, a.id) ==> Erasure(Exec(s, step), a.id)
    ensures a.id in s.handed ==> a.id in Exec(s, step).handed
  {
    if Pending(s, a.c, a.key, a.id) {
      PendingStep(s, step, a.c, a.key, a.id);
    }
    if Erasure(s, a.id) {
      ErasureStep(s, step, a.id);
    }
  }

  // ---- the manager object ----

  predicate NotLate(next: Option<int>, line: seq<Entry>) {
    line == [] || (next.Some? && next.value <= line[0].key)
  }

  lemma InsertFirst(line: seq<Entry>, e: Entry)
    requires Sorted(line)
    ensures Insert(line, e) != []
    ensures Insert(line, e)[0].key == if line == [] || e.key < line[0].key then e.key else line[0].key
  {
    var k := InsertCuts(line, e);
  }

  class CoTimerMgr {
    var system: seq<Entry>
    var steady: seq<Entry>
    var token: map<TimerId, Option<Clock>>
    /** The cached trigger times; `None` is the largest number. */
    var systemNext: Option<int>
    var steadyNext: Option<int>

    function Now(): Mgr
      reads this
    {
      Mgr(system, steady, token)
    }

    constructor ()
      ensures Now() == Init().mgr && systemNext.None? && steadyNext.None?
    {
      system, steady, token := [], [], map[];
      systemNext, steadyNext := None, None;
    }

    /** The cached times are not later than the first deadlines. */
    ghost predicate Prompt()
      reads this
    {
      NotLate(systemNext, system) && NotLate(steadyNext, steady)
    }

    function Next(c: Clock): Option<int>
      reads this
    {
      if c.System? then systemNext else steadyNext
    }

    /** The cached times stay prompt exactly when both maps were empty or the new deadline is not
        earlier than the cached time of its clock. */
    method ExpireAt(c: Clock, key: int, id: TimerId)
      requires MgrOk(Now()) && id !in token
      modifies this
      ensures Now() == Added(old(Now()), c, key, id) && MgrOk(Now())
      ensures Next(c) == if old(system) == [] && old(steady) == [] then Some(key) else old(Next(c))
      ensures Next(Other(c)) == old(Next(Other(c)))
      ensures old(Prompt()) ==>
        (Prompt() <==> (old(system) == [] && old(steady) == []) || (old(Next(c)).Some? && old(Next(c)).value <= key))
    {
      AddedKeeps(Now(), c, key, id);
      InsertFirst(Line(Now(), c), Entry(key, id));
      if system == [] && steady == [] {
        match c
        case System => systemNext := Some(key);
        case Steady => steadyNext := Some(key);
      }
      token := token[id := Some(c)];
      match c
      case System => system := Insert(system, Entry(key, id));
      case Steady => steady := Insert(steady, Entry(key, id));
    }

    /** `__Cancel`: the cached times stay as they are, and are not late if they were not. */
    method CancelEntry(id: TimerId)
      requires MgrOk(Now()) && id in token
      modifies this
      ensures Now() == Erased(old(Now()), id) && MgrOk(Now())
      ensures id !in IdsOf(system) && id !in IdsOf(steady)
      ensures systemNext == old(systemNext) && steadyNext == old(steadyNext)
      ensures old(Prompt()) ==> Prompt()
    {
      ErasedIsGone(Now(), id);
      ErasedIsLater(Now(), id, systemNext, steadyNext);
      match token[id] {
        case None => return;
        case Some(System) => system := Remove(system, id);
        case Some(Steady) => steady := Remove(steady, id);
      }
      token := token[id := None];
    }

    /** The iteration over one map, up to the first entry that stays. */
    method Scan(line: seq<Entry>, now: int, n: nat) returns (it: nat)
      requires forall i :: 0 <= i < |line| ==> line[i].id in token
      modifies this`token
      ensures it == Due(line, now, n) && token == Cleared(old(token), IdsOf(line[..it]))
    {
      var left := n;
      it := 0;
      while it < |line| && left > 0
        invariant it <= |line| && left == n - it
        invariant forall i :: 0 <= i < it ==> line[i].key <= now
        invariant token == Cleared(old(token), IdsOf(line[..it]))
      {
        if line[it].key > now {
          break;
        }
        ClearedNext(old(token), line, it);
        token := token[line[it].id := None];
        left := left - 1;
        it := it + 1;
      }
      DueIs(line, now, n, it);
    }

    /** The due entries of one map are taken out and its trigger time is cached. */
    method TakeDue(c: Clock, now: int, n: nat) returns (taken: seq<Entry>)
      requires MgrOk(Now())
      modifies this
      ensures (Now(), taken) == Take(old(Now()), c, now, n) && MgrOk(Now())
      ensures var line := Line(Now(), c); var next := if c.System? then systemNext else steadyNext;
              next == if line == [] then None else Some(line[0].key)
      ensures if c.System? then steadyNext == old(steadyNext) else systemNext == old(systemNext)
    {
      TakeKeeps(Now(), c, now, n);
      var line := Line(Now(), c);
      LineBehind(c, line, |line|, token);
      var it := Scan(line, now, n);
      taken := line[..it];
      var next := if it < |line| then Some(line[it].key) else None;
      match c
      case System => systemNext, system := next, system[it..];
      case Steady => steadyNext, steady := next, steady[it..];
    }

    /** `unlocked` is the answer of the try-lock; without it nothing is handed out. */
    method GetExpired(unlocked: bool, systemNow: int, steadyNow: int, n: nat) returns (result: seq<Entry>)
      requires MgrOk(Now())
      modifies this
      ensures MgrOk(Now())
      ensures !unlocked ==> result == [] && Now() == old(Now()) && systemNext == old(systemNext) && steadyNext == old(steadyNext)
      ensures unlocked ==> Now() == Expired(old(Now()), systemNow, steadyNow, n).0
      ensures unlocked ==> result == Expired(old(Now()), systemNow, steadyNow, n).1 + Expired(old(Now()), systemNow, steadyNow, n).2
      ensures unlocked ==> systemNext == (if system == [] then None else Some(system[0].key))
      ensures unlocked ==> steadyNext == (if steady == [] then None else Some(steady[0].key))
      ensures unlocked ==> Prompt()
    {
      if !unlocked {
        return [];
      }
      var first := TakeDue(System, systemNow, n);
      var second := TakeDue(Steady, steadyNow, n - |first|);
      result := first + second;
    }

    /** The timer loop of the scheduler, and with no bound that of the sleepers: batches of at most 128
        until one is empty or the bound is reached. `unlocked` and `clock` give the answers of the try-lock
        and the readings of each round. The loop ends early only for a lock that was taken. */
    method HandOut(everyCycle: nat, unlocked: nat -> bool, clock: nat -> (int, int)) returns (c: nat, rounds: nat)
      requires MgrOk(Now())
      modifies this
      ensures MgrOk(Now()) && c == old(|system| + |steady|) - (|system| + |steady|)
      ensures everyCycle == 0 || c < everyCycle ==>
        rounds > 0 && (unlocked(rounds - 1) ==> NoneDue(Now(), clock(rounds - 1)))
      ensures forall k :: 0 <= k < rounds - 1 ==> unlocked(k)
    {
      c, rounds := 0, 0;
      while everyCycle == 0 || c < everyCycle
        invariant MgrOk(Now()) && c == old(|system| + |steady|) - (|system| + |steady|)
        invariant forall k :: 0 <= k < rounds ==> unlocked(k)
        decreases |system| + |steady|
      {
        var n := Batch(unlocked(rounds), clock(rounds));
        rounds := rounds + 1;
        if n == 0 {
          break;
        }
        c := c + n;
      }
    }

    /** One round: at most 128 timers, and none if the lock is taken. */
    method Batch(unlocked: bool, now: (int, int)) returns (n: nat)
      requires MgrOk(Now())
      modifies this
      ensures MgrOk(Now()) && n == old(|system| + |steady|) - (|system| + |steady|) <= 128
      ensures n == 0 && unlocked ==> NoneDue(Now(), now)
      ensures !unlocked ==> n == 0 && Now() == old(Now())
    {
      ExpiredAreDue(Now(), now.0, now.1, 128);
      var timers := GetExpired(unlocked, now.0, now.1, 128);
      n := |timers|;
    }
  }

  /** A nearer timer behind a farther one: the cached time is late. */
  method NearerTimer() returns (mgr: CoTimerMgr)
    ensures fresh(mgr) && mgr.Now() == Added(Added(Init().mgr, System, 100, 1), System, 50, 2)
    ensures mgr.systemNext == Some(100) && !mgr.Prompt()
  {
    mgr := new CoTimerMgr();
    mgr.ExpireAt(System, 100, 1);
    assert mgr.Prompt() && mgr.systemNext == Some(100) && mgr.system != [];
    mgr.ExpireAt(System, 50, 2);
  }

  lemma ErasedIsGone(m: Mgr, id: TimerId)
    requires MgrOk(m) && id in m.token
    ensures MgrOk(Erased(m, id)) && id !in IdsOf(Erased(m, id).system) && id !in IdsOf(Erased(m, id).steady)
  {
    if m.token[id].Some? {
      EraseFinds(m, id);
    } else {
      NoneIsNowhere(m, id);
    }
  }

  /** An erase makes no first deadline earlier. */
  lemma ErasedIsLater(m: Mgr, id: TimerId, systemNext: Option<int>, steadyNext: Option<int>)
    requires Sorted(m.system) && Sorted(m.steady) && id in m.token
    ensures NotLate(systemNext, m.system) ==> NotLate(systemNext, Erased(m, id).system)
    ensures NotLate(steadyNext, m.steady) ==> NotLate(steadyNext, Erased(m, id).steady)
  {
    RemoveFirst(m.system, id);
    RemoveFirst(m.steady, id);
  }

  lemma RemoveFirst(line: seq<Entry>, id: TimerId)
    requires Sorted(line)
    ensures Remove(line, id) != [] ==> line != [] && line[0].key <= Remove(line, id)[0].key
  {
    assert line != [] && line[0].id == id && line[1..] != [] ==> line[1..][0] == line[1];
  }

  /** No timer is due at these readings of the two clocks. */
  predicate NoneDue(m: Mgr, now: (int, int)) {
    && (forall i :: 0 <= i < |m.system| ==> m.system[i].key > now.0)
    && (forall i :: 0 <= i < |m.steady| ==> m.steady[i].key > now.1)
  }

  lemma NoneIsNowhere(m: Mgr, id: TimerId)
    requires MgrOk(m) && id in m.token && m.token[id].None?
    ensures id !in IdsOf(m.system) && id !in IdsOf(m.steady)
  {
    OtherLine(System, m.system, m.token, id);
    OtherLine(Steady, m.steady, m.token, id);
  }

  lemma ClearedNext(token: map<TimerId, Option<Clock>>, line: seq<Entry>, it: nat)
    requires it < |line| && line[it].id in token
    ensures Cleared(token, IdsOf(line[..it]))[line[it].id := None] == Cleared(token, IdsOf(line[..it + 1]))
  {
    assert IdsOf(line[..it + 1]) == IdsOf(line[..it]) + [line[it].id];
  }

  lemma {:induction false} DueIs(line: seq<Entry>, now: int, n: nat, k: nat)
    requires k <= n && k <= |line| && forall i :: 0 <= i < k ==> line[i].key <= now
    requires k < n && k < |line| ==> line[k].key > now
    ensures Due(line, now, n) == k
  {
    if 0 < k {
      DueIs(line[1..], now, n - 1, k - 1);
    }
  }
}
