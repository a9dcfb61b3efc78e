/** The intrusive lists: nodes linked both ways on the heap, each list refined to a sequence. The
    spin lock makes every method one atomic section. */
module TsQueues {
  import opened Commons

  /** A task's hook. `check` is the tag of the list that the node belongs to, zero for none. */
  class Hook {
    var prev: Hook?
    var next: Hook?
    var check: nat
    var refs: int

    constructor ()
      ensures prev == null && next == null && check == 0 && refs == 1
    {
      prev, next, check, refs := null, null, 0, 1;
    }
  }

  ghost predicate Differ(s: seq<Hook>, i: nat, j: nat)
    requires i < |s| && j < |s|
  {
    s[i] != s[j]
  }

  ghost predicate Distinct(s: seq<Hook>) {
    forall i, j :: 0 <= i < j < |s| ==> Differ(s, i, j)
  }

  ghost predicate Disjoint(s: seq<Hook>, t: seq<Hook>) {
    forall h :: h in s ==> h !in t
  }

  /** Neighbours point to each other. */
  ghost predicate Link(s: seq<Hook>, i: nat)
    requires i + 1 < |s|
    reads s
  {
    s[i].next == s[i + 1] && s[i + 1].prev == s[i]
  }

  ghost predicate Linked(s: seq<Hook>)
    reads s
  {
    forall i :: 0 <= i < |s| - 1 ==> Link(s, i)
  }

  /** Distinct nodes, linked in this order and to nothing else. */
  ghost predicate Chain(s: seq<Hook>)
    reads s
  {
    && Distinct(s)
    && Linked(s)
    && (s != [] ==> s[0].prev == null && s[|s| - 1].next == null)
  }

  /** Every node but `x` carries the tag. */
  ghost predicate Tagged(s: seq<Hook>, x: Hook?, check: nat)
    reads s
  {
    forall h :: h in s && h != x ==> h.check == check
  }

  /** No reference count of a node has changed, but that of `x`. */
  twostate predicate SameRefs(s: seq<Hook>, x: Hook?)
    reads s
  {
    forall h :: h in s && h != x ==> h.refs == old(h.refs)
  }

  lemma Apart(s: seq<Hook>, i: nat, j: nat)
    requires Distinct(s) && i < |s| && j < |s| && i != j
    ensures s[i] != s[j]
  {
    assert if i < j then Differ(s, i, j) else Differ(s, j, i);
  }

  /** What a node's neighbours are. */
  lemma Neighbours(s: seq<Hook>, k: nat)
    requires Chain(s) && k < |s|
    ensures s[k].prev == (if k > 0 then s[k - 1] else null)
    ensures s[k].next == (if k + 1 < |s| then s[k + 1] else null)
  {
    if k > 0 { assert Link(s, k - 1); }
    if k + 1 < |s| { assert Link(s, k); }
  }

  /** Takes the nodes from `first` to `last` out of a list and links the nodes around them. */
  method Detach(before: Hook?, first: Hook, last: Hook, ghost s: seq<Hook>, ghost i: nat, ghost j: nat)
    requires Chain(s) && i < j <= |s| && s[i] == first && s[j - 1] == last && before == first.prev
    modifies s
    ensures Chain(s[..i] + s[j..]) && Chain(s[i..j]) && Disjoint(s[..i] + s[j..], s[i..j])
    ensures forall h :: h in s ==> h.check == old(h.check) && h.refs == old(h.refs)
  {
    Neighbours(s, i);
    Neighbours(s, j - 1);
    if before != null {
      before.next := last.next;
    }
    if last.next != null {
      last.next.prev := before;
    }
    first.prev, last.next := null, null;
    forall n | 0 <= n < |s| - 1 && n != i - 1 && n != j - 1 ensures Link(s, n) {
      assert old(Link(s, n));
      if i > 0 { Apart(s, n, i - 1); }
      Apart(s, n, j - 1);
      Apart(s, n + 1, i);
      if j < |s| { Apart(s, n + 1, j); }
    }
    if i > 0 { Apart(s, i - 1, j - 1); Apart(s, 0, i); }
    if j < |s| { Apart(s, i, j); Apart(s, 0, j); Apart(s, j - 1, |s| - 1); }
    if i > 0 && j < |s| { Apart(s, i - 1, |s| - 1); }
    Detached(s, i, j);
  }

  lemma TaggedParts(s: seq<Hook>, i: nat, j: nat, x: Hook, tag: nat)
    requires 0 < i < j <= |s| && Disjoint(s[..i] + s[j..], s[i..j]) && s[0] == x && Tagged(s, x, tag)
    ensures Tagged(s[..i] + s[j..], x, tag) && Tagged(s[i..j], null, tag)
  {
    assert (s[..i] + s[j..])[0] == x;
  }

  lemma Detached(s: seq<Hook>, i: nat, j: nat)
    requires Distinct(s) && i < j <= |s|
    requires forall n :: 0 <= n < |s| - 1 && n != i - 1 && n != j - 1 ==> Link(s, n)
    requires s[i].prev == null && s[j - 1].next == null
    requires i > 0 ==> s[0].prev == null && s[i - 1].next == if j < |s| then s[j] else null
    requires j < |s| ==> s[|s| - 1].next == null && s[j].prev == if i > 0 then s[i - 1] else null
    ensures Chain(s[..i] + s[j..]) && Chain(s[i..j]) && Disjoint(s[..i] + s[j..], s[i..j])
  {
    var r, m, d := s[..i] + s[j..], s[i..j], j - i;
    forall n | 0 <= n < |m| - 1 ensures Link(m, n) {
      assert Link(s, i + n);
    }
    forall n | 0 <= n < |r| - 1 ensures Link(r, n) {
      if n != i - 1 {
        assert Link(s, if n < i then n else n + d);
      }
    }
    forall a, b | 0 <= a < b < |r| ensures Differ(r, a, b) {
      Apart(s, if a < i then a else a + d, if b < i then b else b + d);
    }
    forall a, b | 0 <= a < b < |m| ensures Differ(m, a, b) {
      Apart(s, i + a, i + b);
    }
    forall a, b | 0 <= a < |r| && 0 <= b < |m| ensures r[a] != m[b] {
      Apart(s, if a < i then a else a + d, i + b);
    }
  }

  /** Links the list `t` behind the list `s`. */
  method Join(a: Hook, b: Hook, ghost s: seq<Hook>, ghost t: seq<Hook>)
    requires Chain(s) && Chain(t) && s != [] && t != [] && a == s[|s| - 1] && b == t[0] && Disjoint(s, t)
    modifies a, b
    ensures Chain(s + t)
    ensures a.check == old(a.check) && a.refs == old(a.refs) && b.check == old(b.check) && b.refs == old(b.refs)
  {
    ghost var r := s + t;
    a.next := b;
    b.prev := a;
    forall n | 0 <= n < |r| - 1 ensures Link(r, n) {
      if n + 1 < |s| {
        assert old(Link(s, n));
        Apart(s, n, |s| - 1);
        assert s[n + 1] in s;
      } else if n >= |s| {
        assert old(Link(t, n - |s|));
        Apart(t, 0, n + 1 - |s|);
        assert t[n - |s|] in t;
      }
    }
    Together(s, t);
    assert s[0] in s && t[|t| - 1] in t;
  }

  lemma Together(s: seq<Hook>, t: seq<Hook>)
    requires Distinct(s) && Distinct(t) && Disjoint(s, t)
    ensures Distinct(s + t)
  {
    forall i, j | 0 <= i < j < |s + t| ensures Differ(s + t, i, j) {
      if j < |s| {
        Apart(s, i, j);
      } else if i >= |s| {
        Apart(t, i - |s|, j - |s|);
      } else {
        assert s[i] in s && t[j - |s|] in t;
      }
    }
  }

  /** Takes one node out, clears its tag and drops the list's reference to it. */
  method Unlink(h: Hook, ghost s: seq<Hook>, ghost k: nat)
    requires Chain(s) && k < |s| && s[k] == h
    modifies s
    ensures Chain(s[..k] + s[k + 1..]) && h !in s[..k] + s[k + 1..]
    ensures h.prev == null && h.next == null && h.check == 0 && h.refs == old(h.refs) - 1
    ensures forall g :: g in s && g != h ==> g.check == old(g.check) && g.refs == old(g.refs)
  {
    Detach(h.prev, h, h, s, k, k + 1);
    assert s[k..k + 1] == [h];
    ghost var r := s[..k] + s[k + 1..];
    assert h in s[k..k + 1];
    label Detached:
    h.check := 0;
    h.refs := h.refs - 1;
    forall n | 0 <= n < |r| - 1 ensures Link(r, n) {
      assert old@Detached(Link(r, n));
    }
  }

  /** A piece taken out of a queue, on its way into another. */
  class SList {
    var head: Hook?
    var tail: Hook?
    var check: nat
    var count: nat
    ghost var nodes: seq<Hook>

    ghost predicate Valid()
      reads this, nodes
    {
      && Chain(nodes) && count == |nodes| && Tagged(nodes, null, check)
      && (if nodes == [] then head == null && tail == null
          else head == nodes[0] && tail == nodes[|nodes| - 1] && check != 0)
    }

    constructor ()
      ensures Valid() && nodes == []
    {
      head, tail, check, count := null, null, 0, 0;
      nodes := [];
    }

    constructor Of(first: Hook, last: Hook, c: nat, tag: nat, ghost s: seq<Hook>)
      requires Chain(s) && Tagged(s, null, tag) && s != [] && s[0] == first && s[|s| - 1] == last && |s| == c && tag != 0
      ensures Valid() && nodes == s && check == tag
    {
      head, tail, check, count := first, last, tag, c;
      nodes := s;
    }

    method Stealed()
      modifies this
      ensures Valid() && nodes == []
    {
      head, tail, check, count := null, null, 0, 0;
      nodes := [];
    }

    /** Unlinks one node and drops the list's reference to it. */
    method Erase(ptr: Hook, ghost k: nat)
      requires Valid() && k < |nodes| && nodes[k] == ptr
      modifies this, nodes
      ensures Valid() && nodes == old(nodes[..k] + nodes[k + 1..])
      ensures ptr.prev == null && ptr.next == null && ptr.check == 0 && ptr.refs == old(ptr.refs) - 1
      ensures SameRefs(old(nodes), ptr)
    {
      Neighbours(nodes, k);
      if ptr.prev == null {
        head := head.next;
      }
      if ptr.next == null {
        tail := tail.prev;
      }
      Unlink(ptr, nodes, k);
      count := count - 1;
      nodes := nodes[..k] + nodes[k + 1..];
    }
  }

  /** Makes the `c` nodes from `first` to `last` a list of their own. */
  method Extract(before: Hook, first: Hook, last: Hook, c: nat, tag: nat, ghost s: seq<Hook>, ghost i: nat)
    returns (list: SList)
    requires Chain(s) && 0 < i < i + c <= |s| && Tagged(s, s[0], tag) && tag != 0
    requires before == s[i - 1] && first == s[i] && last == s[i + c - 1]
    modifies s
    ensures list.Valid() && fresh(list) && list.check == tag && list.nodes == s[i..i + c]
    ensures Chain(s[..i] + s[i + c..]) && Tagged(s[..i] + s[i + c..], s[0], tag)
    ensures SameRefs(s, null)
  {
    Neighbours(s, i);
    Detach(before, first, last, s, i, i + c);
    TaggedParts(s, i, i + c, s[0], tag);
    ghost var piece := s[i..i + c];
    assert piece[0] == first && piece[c - 1] == last;
    list := new SList.Of(first, last, c, tag, piece);
  }

  class TSQueue {
    /** A sentinel that never holds an element. */
    const head: Hook
    var tail: Hook
    var count: nat
    const check: nat
    /** The sentinel and the elements behind it. */
    ghost var nodes: seq<Hook>

    ghost predicate Valid()
      reads this, nodes
    {
      && nodes != [] && nodes[0] == head && nodes[|nodes| - 1] == tail
      && Chain(nodes) && count == |nodes| - 1 && Tagged(nodes, head, check) && check != 0
    }

    lemma EmptyIff()
      requires Valid()
      ensures head == tail <==> |nodes| == 1
    {
      if |nodes| > 1 { Apart(nodes, 0, |nodes| - 1); }
    }

    ghost function Contents(): seq<Hook>
      requires nodes != []
      reads this
    {
      nodes[1..]
    }

    constructor (tag: nat)
      requires tag != 0
      ensures Valid() && Contents() == [] && check == tag && fresh(nodes)
    {
      var sentinel := new Hook();
      head, tail, count, check := sentinel, sentinel, 0, tag;
      nodes := [sentinel];
    }

    method Empty() returns (r: bool)
      requires Valid()
      ensures r <==> Contents() == []
    {
      EmptyIff();
      r := head == tail;
    }

    method Push(h: Hook)
      requires Valid() && h !in nodes
      modifies this, nodes, h
      ensures Valid() && nodes == old(nodes) + [h]
      ensures h.refs == old(h.refs) + 1 && SameRefs(old(nodes), h)
    {
      ghost var s := nodes;
      tail.next := h;
      h.prev := tail;
      h.next := null;
      h.check := check;
      tail := h;
      count := count + 1;
      h.refs := h.refs + 1;
      nodes := s + [h];
      forall n | 0 <= n < |s| ensures Link(nodes, n) {
        if n + 1 < |s| {
          assert old(Link(s, n));
          Apart(s, n, |s| - 1);
        }
      }
      Together(s, [h]);
    }

    method Pop() returns (r: Hook?)
      requires Valid()
      modifies this, nodes
      ensures Valid()
      ensures r == null <==> old(Contents()) == []
      ensures r == null ==> nodes == old(nodes) && SameRefs(nodes, null)
      ensures r != null ==> r == old(nodes)[1] && nodes == old(nodes)[..1] + old(nodes)[2..]
                            && r.prev == null && r.next == null && r.check == 0 && r.refs == old(r.refs) - 1
                            && SameRefs(old(nodes), r)
    {
      EmptyIff();
      if head == tail {
        return null;
      }
      var ptr := head.next;
      Neighbours(nodes, 0);
      if |nodes| > 2 { Apart(nodes, 1, |nodes| - 1); }
      if ptr == tail {
        tail := head;
      }
      Unlink(ptr, nodes, 1);
      count := count - 1;
      nodes := nodes[..1] + nodes[2..];
      r := ptr;
    }

    /** Takes any element out. A tag that matches is a promise of membership. */
    method Erase(h: Hook, ghost k: nat) returns (ok: bool)
      requires Valid() && (h.check == check ==> 0 < k < |nodes| && nodes[k] == h)
      modifies this, nodes
      ensures Valid() && ok == (old(h.check) == check)
      ensures !ok ==> nodes == old(nodes) && SameRefs(nodes, null)
      ensures ok ==> nodes == old(nodes[..k] + nodes[k + 1..])
                     && h.prev == null && h.next == null && h.check == 0 && h.refs == old(h.refs) - 1
                     && SameRefs(old(nodes), h)
    {
      if h.check != check {
        return false;
      }
      Neighbours(nodes, k);
      if h.next == null && h == tail {
        tail := tail.prev;
      }
      Unlink(h, nodes, k);
      count := count - 1;
      nodes := nodes[..k] + nodes[k + 1..];
      ok := true;
    }

    /** Appends a detached piece that carries this list's tag; the counts of its nodes stay. */
    method Splice(list: SList)
      requires Valid() && list.Valid() && (list.nodes != [] ==> list.check == check)
      requires Disjoint(nodes, list.nodes)
      modifies this, nodes, list, list.nodes
      ensures Valid() && nodes == old(nodes) + old(list.nodes)
      ensures list.Valid() && list.nodes == []
      ensures SameRefs(nodes, null)
    {
      if list.head == null {
        return;
      }
      ghost var s, t := nodes, list.nodes;
      count := count + list.count;
      Join(tail, list.head, s, t);
      tail := list.tail;
      list.Stealed();
      nodes := s + t;
    }

    /** Moves `c` elements, from `first` to `last`, into a list of their own. */
    method TakeOut(before: Hook, first: Hook, last: Hook, c: nat, ghost i: nat) returns (list: SList)
      requires Valid() && 0 < i < i + c <= |nodes|
      requires before == nodes[i - 1] && first == nodes[i] && last == nodes[i + c - 1]
      modifies this, nodes
      ensures Valid() && list.Valid() && fresh(list) && list.check == check
      ensures list.nodes == old(nodes)[i..i + c] && nodes == old(nodes)[..i] + old(nodes)[i + c..]
      ensures SameRefs(old(nodes), null)
    {
      ghost var s, j := nodes, i + c;
      if j < |s| { Apart(s, j - 1, |s| - 1); }
      if last == tail {
        tail := before;
      }
      list := Extract(before, first, last, c, check, s, i);
      count := count - c;
      nodes := s[..i] + s[j..];
    }

    /** The first `n` elements, or all of them if there are fewer; one even when `n` is zero. */
    method PopFront(n: nat) returns (list: SList)
      requires Valid()
      modifies this, nodes
      ensures Valid() && list.Valid() && fresh(list) && (list.nodes != [] ==> list.check == check)
      ensures var s := old(nodes); var c := Taken(n, |s| - 1);
              list.nodes == s[1..c + 1] && nodes == s[..1] + s[c + 1..]
      ensures SameRefs(old(nodes), null)
    {
      EmptyIff();
      if head == tail {
        list := new SList();
        return;
      }
      Neighbours(nodes, 0);
      var first := head.next;
      var last, c := Forward(first, n, nodes);
      list := TakeOut(head, first, last, c, 1);
    }

    /** The last `n` elements in their order, or all of them; one even when `n` is zero. */
    method PopBack(n: nat) returns (list: SList)
      requires Valid()
      modifies this, nodes
      ensures Valid() && list.Valid() && fresh(list) && (list.nodes != [] ==> list.check == check)
      ensures var s := old(nodes); var i := |s| - Taken(n, |s| - 1);
              list.nodes == s[i..] && nodes == s[..i]
      ensures SameRefs(old(nodes), null)
    {
      EmptyIff();
      if head == tail {
        list := new SList();
        return;
      }
      var first, c := Backward(n, nodes);
      Neighbours(nodes, |nodes| - c);
      list := TakeOut(first.prev, first, tail, c, |nodes| - c);
    }

    method PopAll() returns (list: SList)
      requires Valid()
      modifies this, nodes
      ensures Valid() && list.Valid() && fresh(list) && (list.nodes != [] ==> list.check == check)
      ensures list.nodes == old(nodes)[1..] && nodes == old(nodes)[..1]
      ensures SameRefs(old(nodes), null)
    {
      EmptyIff();
      if head == tail {
        list := new SList();
        return;
      }
      Neighbours(nodes, 0);
      list := TakeOut(head, head.next, tail, count, 1);
    }

    /** The node that `n` elements from `first` on reach, and how many there are. */
    method Forward(first: Hook, n: nat, ghost s: seq<Hook>) returns (last: Hook, c: nat)
      requires Chain(s) && |s| > 1 && s[1] == first
      ensures c == Taken(n, |s| - 1) && last == s[c]
    {
      last, c := first, 1;
      while c < n && last.next != null
        invariant 1 <= c < |s| && last == s[c] && (c <= n || c == 1)
        decreases |s| - c
      {
        Neighbours(s, c);
        last := last.next;
        c := c + 1;
      }
      Neighbours(s, c);
    }

    method Backward(n: nat, ghost s: seq<Hook>) returns (first: Hook, c: nat)
      requires Chain(s) && |s| > 1 && s[0] == head && s[|s| - 1] == tail
      ensures c == Taken(n, |s| - 1) && first == s[|s| - c]
    {
      first, c := tail, 1;
      while c < n && first.prev != null && first.prev != head
        invariant 1 <= c < |s| && first == s[|s| - c] && (c <= n || c == 1)
        decreases |s| - c
      {
        Neighbours(s, |s| - c);
        Apart(s, 0, |s| - c - 1);
        first := first.prev;
        c := c + 1;
      }
      Neighbours(s, |s| - c);
      if |s| - c - 1 > 0 { Apart(s, 0, |s| - c - 1); }
    }
  }

  /** Half of the victim's tasks, rounded up, move from its end to the end of the thief's list: no
      task is lost or copied, and both lists keep their order. */
  method StealHalf(victim: TSQueue, thief: TSQueue) returns (c: nat)
    requires victim.Valid() && thief.Valid() && victim != thief && victim.check == thief.check
    requires Disjoint(victim.nodes, thief.nodes)
    modifies victim, victim.nodes, thief, thief.nodes
    ensures victim.Valid() && thief.Valid()
    ensures c == |old(victim.nodes)| / 2
    ensures victim.nodes == old(victim.nodes)[..|old(victim.nodes)| - c]
    ensures thief.nodes == old(thief.nodes) + old(victim.nodes)[|old(victim.nodes)| - c..]
    ensures multiset(victim.nodes) + multiset(thief.nodes) == old(multiset(victim.nodes) + multiset(thief.nodes))
    ensures SameRefs(old(victim.nodes), null) && SameRefs(old(thief.nodes), null)
  {
    ghost var v, t := victim.nodes, thief.nodes;
    var tasks := Surrender(victim, thief, (victim.count + 1) / 2);
    c := tasks.count;
    if c > 0 {
      Receive(victim, thief, tasks);
    }
    Moved(v, t, victim.nodes, thief.nodes, |v| - c);
  }

  lemma Moved(v: seq<Hook>, t: seq<Hook>, v': seq<Hook>, t': seq<Hook>, i: nat)
    requires i <= |v| && v' == v[..i] && t' == t + v[i..]
    ensures multiset(v') + multiset(t') == multiset(v) + multiset(t)
  {
    assert v == v[..i] + v[i..];
  }

  /** A pop from the end does not disturb a list that shares no node with it. */
  method Surrender(queue: TSQueue, other: TSQueue, n: nat) returns (list: SList)
    requires queue.Valid() && other.Valid() && other != queue && Disjoint(queue.nodes, other.nodes)
    modifies queue, queue.nodes
    ensures queue.Valid() && other.Valid() && list.Valid() && fresh(list)
    ensures list.nodes != [] ==> list.check == queue.check
    ensures var s := old(queue.nodes); var i := |s| - Taken(n, |s| - 1); list.nodes == s[i..] && queue.nodes == s[..i]
    ensures Disjoint(queue.nodes, list.nodes) && Disjoint(queue.nodes, other.nodes) && Disjoint(other.nodes, list.nodes)
    ensures SameRefs(old(queue.nodes), null)
  {
    ghost var v, w := queue.nodes, other.nodes;
    list := queue.PopBack(n);
    forall k | 0 <= k < |w| - 1 ensures Link(w, k) {
      assert old(Link(w, k)) && w[k] in w && w[k + 1] in w;
    }
    assert w[0] in w && w[|w| - 1] in w;
    Halves(v, |queue.nodes|);
    DisjointParts(v, |queue.nodes|, w);
  }

  lemma DisjointParts(v: seq<Hook>, i: nat, t: seq<Hook>)
    requires Disjoint(v, t) && i <= |v|
    ensures Disjoint(v[..i], t) && Disjoint(t, v[i..])
  {
  }

  /** A splice does not disturb a list that shares no node with it. */
  method Receive(other: TSQueue, queue: TSQueue, list: SList)
    requires other.Valid() && queue.Valid() && list.Valid() && (list.nodes != [] ==> list.check == queue.check)
    requires other != queue && Disjoint(other.nodes, queue.nodes)
    requires Disjoint(other.nodes, list.nodes) && Disjoint(queue.nodes, list.nodes)
    modifies queue, queue.nodes, list, list.nodes
    ensures other.Valid() && queue.Valid() && queue.nodes == old(queue.nodes) + old(list.nodes)
    ensures SameRefs(queue.nodes, null)
  {
    ghost var w := other.nodes;
    queue.Splice(list);
    forall n | 0 <= n < |w| - 1 ensures Link(w, n) {
      assert old(Link(w, n)) && w[n] in w && w[n + 1] in w;
    }
    assert w[0] in w && w[|w| - 1] in w;
  }

  lemma Halves(s: seq<Hook>, i: nat)
    requires Distinct(s) && i <= |s|
    ensures Disjoint(s[..i], s[i..])
  {
    forall h | h in s[..i] ensures h !in s[i..] {
      if h in s[i..] {
        var a :| 0 <= a < i && s[a] == h;
        var b :| 0 <= b < |s| - i && s[i..][b] == h;
        Apart(s, a, i + b);
      }
    }
  }
}
