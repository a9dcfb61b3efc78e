/** What several modules need. */
module Commons {

  type TaskId = nat
  type BlockId = nat
  type TimerId = nat
  type SentryId = nat

  datatype Option<T> = None | Some(value: T)

  function One(b: bool): nat { if b then 1 else 0 }

  /** How many nodes a bounded pop takes from a list of `size`: one even for a bound of zero. */
  function Taken(n: nat, size: nat): nat {
    if size == 0 then 0 else if n == 0 then 1 else if n < size then n else size
  }

  /** A fact that is false at first and turns true exactly by certain steps, for good. */
  lemma {:induction false} TurnsTrue(facts: seq<bool>, turns: seq<bool>, i: nat)
    requires |facts| == |turns| + 1 && !facts[0] && i < |facts|
    requires forall k :: 0 <= k < |turns| ==> (facts[k + 1] <==> facts[k] || turns[k])
    ensures facts[i] <==> exists j :: 0 <= j < i && turns[j]
  {
    if i > 0 {
      TurnsTrue(facts, turns, i - 1);
      var k := i - 1;
      assert facts[k + 1] <==> facts[k] || turns[k];
    }
  }
}
