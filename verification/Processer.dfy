/** One pass of a processer over its run list, without arrivals or steals from other threads. */
module Processers {
  import opened Commons

  /** How a task's slice ends: the state it yields in and what its handler then does with it. */
  datatype Outcome =
    | Runnable
    | IoBlock
    | Sleep
    | SysBlock(parked: bool)
    | Done(threw: bool)

  /** The task goes back to the run list; also when the block object had a signal for it. */
  predicate Stays(o: Outcome) { o.Runnable? || (o.SysBlock? && !o.parked) }

  /** The tasks of a list that stay, in order. */
  function Stayers(s: seq<TaskId>, slice: TaskId -> Outcome): (r: seq<TaskId>)
    ensures |r| <= |s|
  {
    if s == [] then []
    else
      var last := s[|s| - 1];
      Stayers(s[..|s| - 1], slice) + if Stays(slice(last)) then [last] else []
  }

  function DoneIn(s: seq<TaskId>, slice: TaskId -> Outcome): (n: nat)
    ensures n <= |s|
  {
    if s == [] then 0 else DoneIn(s[..|s| - 1], slice) + if slice(s[|s| - 1]).Done? then 1 else 0
  }

  /** The length of the run list after `k` slices. */
  function SizeAfter(s: seq<TaskId>, slice: TaskId -> Outcome, k: nat): nat
    requires k <= |s|
  {
    |s| - k + |Stayers(s[..k], slice)|
  }

  /** The run list after `k` slices. */
  function Remaining(s: seq<TaskId>, slice: TaskId -> Outcome, k: nat): seq<TaskId>
    requires k <= |s|
  {
    s[k..] + Stayers(s[..k], slice)
  }

  /** One slice more. */
  lemma OneSlice(s: seq<TaskId>, slice: TaskId -> Outcome, k: nat)
    requires k < |s|
    ensures Stayers(s[..k + 1], slice) == Stayers(s[..k], slice) + if Stays(slice(s[k])) then [s[k]] else []
    ensures DoneIn(s[..k + 1], slice) == DoneIn(s[..k], slice) + if slice(s[k]).Done? then 1 else 0
    ensures s[..k + 1] == s[..k] + [s[k]]
    ensures Remaining(s, slice, k)[0] == s[k]
    ensures Remaining(s, slice, k + 1) == Remaining(s, slice, k)[1..] + if Stays(slice(s[k])) then [s[k]] else []
  {
    assert s[..k + 1][..k] == s[..k];
    assert s[k..] == [s[k]] + s[k + 1..];
    assert Remaining(s, slice, k)[1..] == s[k + 1..] + Stayers(s[..k], slice);
  }

  class Processer {
    var runnableList: seq<TaskId>
    var current: seq<TaskId>

    /** The pass stops exactly when as many slices have run as tasks are left in the list, or with the
        exception of a task that ended in one. `ran` are the tasks swapped in, in order. */
    method Run(slice: TaskId -> Outcome) returns (c: nat, doneCount: nat, threw: bool, ghost ran: seq<TaskId>)
      requires current == []
      modifies this
      ensures current == [] && c <= |old(runnableList)|
      ensures ran == old(runnableList)[..c]
      ensures var s := old(runnableList);
              runnableList == s[c..] + Stayers(s[..c], slice) && doneCount == DoneIn(s[..c], slice)
      ensures forall k :: 0 <= k < c ==> k < SizeAfter(old(runnableList), slice, k)
      ensures !threw ==> Stopped(old(runnableList), slice, c)
      ensures threw ==> c > 0 && slice(old(runnableList)[c - 1]) == Done(true)
    {
      ghost var s := runnableList;
      doneCount, c, threw, ran := 0, 0, false, [];
      while true
        invariant c <= |s| && current == [] && runnableList == Remaining(s, slice, c)
        invariant doneCount == DoneIn(s[..c], slice) && ran == s[..c]
        invariant forall k :: 0 <= k < c ==> k < SizeAfter(s, slice, k)
        decreases |s| - c
      {
        if c >= |runnableList| { break; }
        var tk := runnableList[0];
        OneSlice(s, slice, c);
        runnableList := runnableList[1..];
        c := c + 1;
        current := [tk];
        var state := slice(tk);
        ran := ran + current;
        current := [];
        var done;
        done, threw := Settle(tk, state);
        if done {
          doneCount := doneCount + 1;
        }
        if threw {
          return;
        }
      }
    }

    /** The switch over the state in which a task came back. */
    method Settle(tk: TaskId, state: Outcome) returns (done: bool, threw: bool)
      modifies this`runnableList
      ensures runnableList == old(runnableList) + if state == Runnable || state == SysBlock(false) then [tk] else []
      ensures done == state.Done? && threw == (state == Done(true))
    {
      done, threw := false, false;
      match state
      case Runnable => runnableList := runnableList + [tk];
      case IoBlock =>
      case Sleep =>
      case SysBlock(parked) =>
        if !parked {
          runnableList := runnableList + [tk];
        }
      case Done(exception) =>
        done, threw := true, exception;
    }
  }

  /** What the source says of `c` after a pass that nothing cut short. */
  predicate Stopped(s: seq<TaskId>, slice: TaskId -> Outcome, c: nat) {
    c <= |s| && c >= SizeAfter(s, slice, c) && forall k :: 0 <= k < c ==> k < SizeAfter(s, slice, k)
  }

  /** At least half of the tasks, rounded up, have run, and none twice. */
  lemma AtLeastHalf(s: seq<TaskId>, slice: TaskId -> Outcome, c: nat)
    requires Stopped(s, slice, c)
    ensures (|s| + 1) / 2 <= c <= |s|
    ensures (forall i, j :: 0 <= i < j < |s| ==> s[i] != s[j]) ==> forall i, j :: 0 <= i < j < c ==> s[..c][i] != s[..c][j]
  {
    var r := Stayers(s[..c], slice);
    assert |r| <= c;
  }

  lemma {:induction false} AllStayKeepsOrder(s: seq<TaskId>, slice: TaskId -> Outcome)
    requires forall i :: 0 <= i < |s| ==> Stays(slice(s[i]))
    ensures Stayers(s, slice) == s
    decreases |s|
  {
    if s != [] {
      AllStayKeepsOrder(s[..|s| - 1], slice);
    }
  }

  /** If every task stays runnable, all of them run and the list is as it was. */
  lemma AllStayAllRun(s: seq<TaskId>, slice: TaskId -> Outcome, c: nat)
    requires Stopped(s, slice, c) && forall i :: 0 <= i < |s| ==> Stays(slice(s[i]))
    ensures c == |s| && s[c..] + Stayers(s[..c], slice) == s
  {
    AllStayKeepsOrder(s[..c], slice);
    assert s[..|s|] == s;
  }

  lemma {:induction false} NoStayers(s: seq<TaskId>, slice: TaskId -> Outcome)
    requires forall i :: 0 <= i < |s| ==> !Stays(slice(s[i]))
    ensures Stayers(s, slice) == []
    decreases |s|
  {
    if s != [] {
      NoStayers(s[..|s| - 1], slice);
    }
  }

  /** If no task stays, the pass leaves the second half of the list untouched. */
  lemma NoneStayHalfRun(s: seq<TaskId>, slice: TaskId -> Outcome, c: nat)
    requires Stopped(s, slice, c) && forall i :: 0 <= i < |s| ==> !Stays(slice(s[i]))
    ensures c == (|s| + 1) / 2 && s[c..] + Stayers(s[..c], slice) == s[c..]
  {
    NoStayers(s[..c], slice);
    if c > 0 {
      assert c - 1 < SizeAfter(s, slice, c - 1);
      NoStayers(s[..c - 1], slice);
    }
  }
}
