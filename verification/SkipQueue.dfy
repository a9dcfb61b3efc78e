/** The intrusive queue with a layer of indexes, one every `distance` nodes, that lets `PopFront` jump:
    it behaves as the plain queue does. */
module SkipQueues {
  import opened TsQueues

  // ---- masks ----

  /** Bitwise conjunction of two numbers. */
  function And(a: nat, b: nat): nat {
    if a == 0 || b == 0 then 0 else 2 * And(a / 2, b / 2) + (if a % 2 == 1 && b % 2 == 1 then 1 else 0)
  }

  function Pow2(k: nat): (r: nat)
    ensures r > 0
  {
    if k == 0 then 1 else 2 * Pow2(k - 1)
  }

  /** Multiplication by adding up, which keeps what follows linear. */
  function Times(d: nat, n: nat): (r: nat)
    ensures n > 0 ==> r >= d
  {
    if n == 0 then 0 else Times(d, n - 1) + d
  }

  lemma {:induction false} TimesDouble(d: nat, n: nat)
    ensures Times(2 * d, n) == 2 * Times(d, n)
  {
    if n > 0 { TimesDouble(d, n - 1); }
  }

  lemma {:induction false} TimesIsProduct(d: nat, n: nat)
    ensures Times(d, n) == d * n
  {
    if n > 0 {
      TimesIsProduct(d, n - 1);
      assert d * n == d * (n - 1) + d;
    }
  }

  lemma {:induction false} TimesAdds(d: nat, m: nat, n: nat)
    ensures Times(d, m + n) == Times(d, m) + Times(d, n)
  {
    if n > 0 { TimesAdds(d, m, n - 1); }
  }

  /** Masking with a power of two less one leaves the remainder. */
  lemma {:induction false} MaskLeavesRemainder(x: nat, k: nat) returns (q: nat)
    ensures x == Times(Pow2(k), q) + And(x, Pow2(k) - 1) && And(x, Pow2(k) - 1) < Pow2(k)
  {
    if k == 0 {
      q := x;
      TimesIsProduct(1, x);
    } else if x == 0 {
      q := 0;
    } else {
      q := MaskLeavesRemainder(x / 2, k - 1);
      TimesDouble(Pow2(k - 1), q);
      MaskHalf(x, Pow2(k - 1));
    }
  }

  lemma MaskHalf(x: nat, d: nat)
    requires x > 0 && d > 0
    ensures And(x, 2 * d - 1) == 2 * And(x / 2, d - 1) + x % 2
  {
    assert (2 * d - 1) / 2 == d - 1 && (2 * d - 1) % 2 == 1;
  }

  /** Integer division by repeated subtraction. */
  function Div(x: nat, d: nat): nat
    requires d > 0
  {
    if x < d then 0 else 1 + Div(x - d, d)
  }

  lemma {:induction false} DivFinds(x: nat, d: nat, q: nat, r: nat)
    requires r < d && x == Times(d, q) + r
    ensures Div(x, d) == q
  {
    if q > 0 {
      DivFinds(x - d, d, q - 1, r);
    }
  }

  lemma {:induction false} DivIsDivision(x: nat, d: nat)
    requires d > 0
    ensures Div(x, d) == x / d
  {
    if x < d {
      DivisionIsUnique(x, d, 0, x);
    } else {
      DivIsDivision(x - d, d);
      var q, r := (x - d) / d, (x - d) % d;
      assert x - d == d * q + r;
      assert d * (q + 1) == d * q + d;
      DivisionIsUnique(x, d, q + 1, r);
    }
  }

  method Divide(x: nat, d: nat) returns (q: nat)
    requires d > 0
    ensures q == Div(x, d)
  {
    DivIsDivision(x, d);
    q := x / d;
  }

  lemma DivideByMask(x: nat, k: nat)
    ensures x == Times(Pow2(k), Div(x, Pow2(k))) + And(x, Pow2(k) - 1) && And(x, Pow2(k) - 1) < Pow2(k)
  {
    var q := MaskLeavesRemainder(x, k);
    DivFinds(x, Pow2(k), q, And(x, Pow2(k) - 1));
  }

  lemma DivisionIsUnique(x: int, d: int, q: int, r: int)
    requires 0 <= r < d && x == d * q + r
    ensures x / d == q
  {
    var e := x / d - q;
    assert d * (x / d) + x % d == x;
    assert d * (x / d) == d * q + d * e;
    NearZero(d, e);
  }

  lemma NearZero(d: int, e: int)
    requires 0 - d < d * e < d
    ensures e == 0
  {
  }

  // ---- the index layer on positions ----

  /** Where index `k` points, counted from the sentinel. */
  function Spot(d: nat, k: nat, headOffset: nat): int { Times(d, k + 1) - headOffset }

  /** The offsets account for all elements: from the last cut to the last index whole distances. */
  predicate Accounts(d: nat, count: nat, indexes: nat, headOffset: nat, tailOffset: nat) {
    headOffset < d && tailOffset < d && count + headOffset == Times(d, indexes) + tailOffset
  }

  /** A jump: the index to start from, the steps from there, and the layer that remains. */
  lemma Jump(d: nat, count: nat, indexes: nat, ho: nat, to: nat, n: nat, forward: nat, step: nat)
    requires Accounts(d, count, indexes, ho, to) && 0 < n <= count && n + ho >= d
    requires n + ho - d == Times(d, forward) + step && step < d
    ensures forward < indexes && Spot(d, forward, ho) + step == n
    ensures if forward + 1 == indexes then Accounts(d, count - n, 0, 0, count - n)
            else Accounts(d, count - n, indexes - forward - 1, step, to)
  {
    if forward >= indexes {
      TimesAdds(d, indexes, forward - indexes);
      assert false;
    }
    TimesAdds(d, forward + 1, indexes - forward - 1);
  }

  /** The indexes behind the jump, seen from its end. */
  /** The indexes behind number `forward` stand where they should behind `n` elements. */
  lemma IndexesBehind(nodes: seq<Hook>, was: seq<Hook>, d: nat, ho: nat, n: nat, forward: nat, step: nat)
    requires forward < |was| && Spot(d, forward, ho) + step == n && step < d
    requires forall m :: 0 <= m < |was| ==> Indexed(nodes, was, m, Spot(d, m, ho))
    ensures forall k :: 0 <= k < |was| - forward - 1 ==>
              Indexed(nodes, was[forward + 1..], k, n + Spot(d, k, step)) && Spot(d, k, step) > 0
  {
    forall k | 0 <= k < |was| - forward - 1
      ensures Indexed(nodes, was[forward + 1..], k, n + Spot(d, k, step)) && Spot(d, k, step) > 0
    {
      assert Indexed(nodes, was, k + forward + 1, Spot(d, k + forward + 1, ho));
      SpotBehind(d, ho, n, forward, step, k);
    }
  }

  /** And where they should when these are gone. */
  lemma IndexesClosed(s: seq<Hook>, indexes: seq<Hook>, d: nat, ho: nat, c: nat)
    requires c < |s|
    requires forall k :: 0 <= k < |indexes| ==> Indexed(s, indexes, k, c + Spot(d, k, ho)) && Spot(d, k, ho) > 0
    ensures forall k :: 0 <= k < |indexes| ==> Indexed(s[..1] + s[1 + c..], indexes, k, Spot(d, k, ho))
  {
    forall k | 0 <= k < |indexes| ensures Indexed(s[..1] + s[1 + c..], indexes, k, Spot(d, k, ho)) {
      assert Indexed(s, indexes, k, c + Spot(d, k, ho));
    }
  }

  lemma SpotBehind(d: nat, ho: nat, n: nat, forward: nat, step: nat, k: nat)
    requires Spot(d, forward, ho) + step == n && step < d
    ensures Spot(d, k + forward + 1, ho) == n + Spot(d, k, step) && Spot(d, k, step) > 0
  {
    TimesAdds(d, k + 1, forward + 1);
  }

  // ---- the queue ----

  class TSSkipQueue {
    const bits: nat
    const distance: nat
    const check: nat
    const head: Hook
    var tail: Hook
    var count: nat
    var indexes: seq<Hook>
    var headOffset: nat
    var tailOffset: nat
    ghost var nodes: seq<Hook>

    ghost predicate Valid()
      reads this, nodes
    {
      && nodes != [] && nodes[0] == head && nodes[|nodes| - 1] == tail && distance == Pow2(bits) && check != 0
      && Chain(nodes) && count == |nodes| - 1 && Tagged(nodes, head, check)
      && Layered()
    }

    /** Every index points at its position. */
    ghost predicate Layered()
      reads this
    {
      && nodes != [] && Accounts(distance, |nodes| - 1, |indexes|, headOffset, tailOffset)
      && forall k :: 0 <= k < |indexes| ==> Indexed(nodes, indexes, k, Spot(distance, k, headOffset))
    }

    constructor (k: nat, tag: nat)
      requires tag != 0
      ensures Valid() && nodes == [head] && distance == Pow2(k) && check == tag && fresh(nodes)
    {
      var sentinel := new Hook();
      bits, distance, check := k, Pow2(k), tag;
      head, tail, count, indexes, headOffset, tailOffset := sentinel, sentinel, 0, [], 0, 0;
      nodes := [sentinel];
    }

    method Push(h: Hook)
      requires Valid() && h !in nodes
      modifies this, nodes, h
      ensures Valid() && nodes == old(nodes) + [h]
      ensures h.refs == old(h.refs) + 1 && SameRefs(old(nodes), h)
    {
      ghost var s := nodes;
      tail.next := h;
      h.prev := tail;
      h.next := null;
      h.check := check;
      tail := h;
      count := count + 1;
      h.refs := h.refs + 1;
      nodes := s + [h];
      forall n | 0 <= n < |s| ensures Link(nodes, n) {
        if n + 1 < |s| {
          assert old(Link(s, n));
          Apart(s, n, |s| - 1);
        }
      }
      Together(s, [h]);
      Refresh(s);
    }

    /** Keeps the layer up to date behind a new last node. */
    method Refresh(ghost s: seq<Hook>)
      requires nodes == s + [tail] && s != []
      requires Accounts(distance, |s| - 1, |indexes|, headOffset, tailOffset)
      requires forall k :: 0 <= k < |indexes| ==> Indexed(s, indexes, k, Spot(distance, k, headOffset))
      modifies this`indexes, this`tailOffset
      ensures Layered()
    {
      ghost var old_indexes := indexes;
      forall k | 0 <= k < |indexes| ensures Indexed(nodes, indexes, k, Spot(distance, k, headOffset)) {
        assert Indexed(s, indexes, k, Spot(distance, k, headOffset));
      }
      tailOffset := tailOffset + 1;
      if tailOffset == distance {
        tailOffset := 0;
        ghost var m := |indexes|;
        indexes := indexes + [tail];
        assert Spot(distance, m, headOffset) == |nodes| - 1;
        forall k | 0 <= k < |indexes| ensures Indexed(nodes, indexes, k, Spot(distance, k, headOffset)) {
          if k < m { assert Indexed(nodes, old_indexes, k, Spot(distance, k, headOffset)); }
        }
      }
    }

    /** The first `n` elements, or all of them if there are fewer. */
    method PopFront(n: nat) returns (list: SList)
      requires Valid()
      modifies this, nodes
      ensures Valid() && list.Valid() && fresh(list)
      ensures var s := old(nodes); var c := Least(n, |s| - 1);
              list.nodes == s[1..c + 1] && nodes == s[..1] + s[c + 1..]
      ensures SameRefs(old(nodes), null)
    {
      if |nodes| > 1 { Apart(nodes, 0, |nodes| - 1); }
      if head == tail || n == 0 {
        list := new SList();
        return;
      }
      Neighbours(nodes, 0);
      var first := head.next;
      var c := Least(n, count);
      var last := Find(first, c);
      list := TakeOut(first, last, c);
    }

    /** The node that `n` elements reach, found through the layer, which is then that of the rest. */
    method Find(first: Hook, n: nat) returns (last: Hook)
      requires Valid() && 0 < n < |nodes| && first == nodes[1]
      modifies this`indexes, this`headOffset, this`tailOffset
      ensures last == nodes[n]
      ensures LayeredBehind(n)
    {
      last := first;
      var nextStep := n - 1;
      ghost var p := 1;
      if distance - headOffset > n {
        ghost var ho := headOffset;
        headOffset := headOffset + n;
        forall k | 0 <= k < |indexes| ensures Indexed(nodes, indexes, k, n + Spot(distance, k, headOffset)) {
          assert Indexed(nodes, indexes, k, Spot(distance, k, ho));
        }
      } else if indexes == [] {
        assert false;
      } else {
        last, nextStep, p := Leap(n);
      }
      last := Walk(last, nextStep, p);
    }

    /** Whole distances and the steps behind them. */
    method Aim(x: nat) returns (forward: nat, step: nat)
      requires distance == Pow2(bits)
      ensures x == Times(distance, forward) + step && step < distance
    {
      forward := Divide(x, distance);
      step := And(x, distance - 1);
      DivideByMask(x, bits);
    }

    method Leap(n: nat) returns (last: Hook, nextStep: nat, ghost p: nat)
      requires Valid() && 0 < n < |nodes| && distance - headOffset <= n && indexes != []
      modifies this`indexes, this`headOffset, this`tailOffset
      ensures p + nextStep == n && last == nodes[p]
      ensures LayeredBehind(n)
    {
      ghost var was, ho := indexes, headOffset;
      var forward;
      forward, nextStep := Aim(n + headOffset - distance);
      Jump(distance, count, |indexes|, headOffset, tailOffset, n, forward, nextStep);
      last := indexes[forward];
      p := Spot(distance, forward, headOffset);
      assert Indexed(nodes, indexes, forward, p);
      indexes := indexes[forward + 1..];
      if indexes == [] {
        tailOffset := count - n;
        headOffset := 0;
      } else {
        headOffset := nextStep;
      }
      IndexesBehind(nodes, was, distance, ho, n, forward, nextStep);
    }

    method Walk(start: Hook, steps: nat, ghost p: nat) returns (last: Hook)
      requires Chain(nodes) && p + steps < |nodes| && nodes[p] == start
      ensures last == nodes[p + steps]
    {
      last := start;
      for i := 0 to steps
        invariant last == nodes[p + i]
      {
        Neighbours(nodes, p + i);
        last := last.next;
      }
    }

    /** The layer is that of the nodes behind the first `n` elements. */
    ghost predicate LayeredBehind(n: nat)
      reads this
    {
      && n < |nodes| && Accounts(distance, |nodes| - 1 - n, |indexes|, headOffset, tailOffset)
      && forall k :: 0 <= k < |indexes| ==> Indexed(nodes, indexes, k, n + Spot(distance, k, headOffset))
                                            && Spot(distance, k, headOffset) > 0
    }

    method TakeOut(first: Hook, last: Hook, c: nat) returns (list: SList)
      requires nodes != [] && nodes[0] == head && nodes[|nodes| - 1] == tail && distance == Pow2(bits) && check != 0
      requires Chain(nodes) && count == |nodes| - 1 && Tagged(nodes, head, check)
      requires LayeredBehind(c) && 0 < c && first == nodes[1] && last == nodes[c]
      modifies this, nodes
      ensures Valid() && list.Valid() && fresh(list)
      ensures list.nodes == old(nodes)[1..c + 1] && nodes == old(nodes)[..1] + old(nodes)[c + 1..]
      ensures SameRefs(old(nodes), null)
    {
      ghost var s, j := nodes, 1 + c;
      if j < |s| { Apart(s, j - 1, |s| - 1); }
      if last == tail {
        tail := head;
      }
      list := Extract(head, first, last, c, check, s, 1);
      count := count - c;
      nodes := s[..1] + s[j..];
      IndexesClosed(s, indexes, distance, headOffset, c);
    }
  }

  function Least(a: nat, b: nat): nat { if a < b then a else b }

  /** Index `k` is the node at position `p`. */
  ghost predicate Indexed(nodes: seq<Hook>, indexes: seq<Hook>, k: nat, p: int)
    requires k < |indexes|
  {
    0 < p < |nodes| && indexes[k] == nodes[p]
  }
}
