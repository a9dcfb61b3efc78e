/** Snowflake ids: a millisecond clock, a machine number and a sequence number packed into a word, and
    the age test that subtracts two of them. */
module Snowflakes {
  import opened Commons

  /** A clock reading and the machine number in place; the sequence bits are zero. */
  function Base(t: nat, machine: nat): nat { t * 0x40_0000 + machine % 0x400 * 0x1000 }

  function Pack(t: nat, machine: nat, sequence: nat): nat { Base(t, machine) + sequence % 0x1000 }

  /** A reading whose shift by 22 bits leaves the sign bit of a 64-bit word clear. */
  predicate Fits(t: nat) { t < 0x200_0000_0000 }

  // ---- the machine words ----

  /** The id as the source computes it, on 64-bit words. */
  function Word(t: bv64, machine: bv64, sequence: bv64): bv64 {
    (t << 22) | ((machine & 0x3FF) << 12) | (sequence & 0xFFF)
  }

  /** The three fields share no bit, so that the disjunction is the sum. */
  lemma OrIsSum(t: bv64, machine: bv64, sequence: bv64)
    requires t as nat < 0x200_0000_0000
    ensures ((t << 22) | ((machine & 0x3FF) << 12) | (sequence & 0xFFF)) as nat
         == (t << 22) as nat + ((machine & 0x3FF) << 12) as nat + (sequence & 0xFFF) as nat
  {
  }

  lemma ClockShift(t: bv64)
    requires t as nat < 0x200_0000_0000
    ensures (t << 22) as nat == t as nat * 0x40_0000
  {
  }

  lemma FieldShift(m: bv64)
    ensures ((m & 0x3FF) << 12) as nat == (m & 0x3FF) as nat * 0x1000
  {
  }

  /** A word is its low twelve bits behind the others. */
  lemma SequenceParts(x: bv64) returns (q: bv64)
    ensures x == (q << 12) | (x & 0xFFF)
    ensures (q << 12) as nat == q as nat * 0x1000
  {
    q := x >> 12;
    SequenceShift(x);
  }

  lemma SequenceShift(x: bv64)
    ensures ((x >> 12) << 12) as nat == (x >> 12) as nat * 0x1000
  {
  }

  lemma SequenceJoin(q: bv64, x: bv64)
    ensures ((q << 12) | (x & 0xFFF)) as nat == (q << 12) as nat + (x & 0xFFF) as nat
    ensures (x & 0xFFF) as nat < 0x1000
  {
  }

  lemma SequenceRemainder(x: nat, q: nat, r: nat)
    requires x == q * 0x1000 + r && r < 0x1000
    ensures x % 0x1000 == r
  {
  }

  lemma SequenceMask(x: bv64)
    ensures (x & 0xFFF) as nat == x as nat % 0x1000
  {
    var q := SequenceParts(x);
    SequenceJoin(q, x);
    SequenceRemainder(x as nat, q as nat, (x & 0xFFF) as nat);
  }

  /** A word is its low ten bits behind the others. */
  lemma MachineParts(x: bv64) returns (q: bv64)
    ensures x == (q << 10) | (x & 0x3FF)
    ensures (q << 10) as nat == q as nat * 0x400
  {
    q := x >> 10;
    MachineShift(x);
  }

  lemma MachineShift(x: bv64)
    ensures ((x >> 10) << 10) as nat == (x >> 10) as nat * 0x400
  {
  }

  lemma MachineJoin(q: bv64, x: bv64)
    ensures ((q << 10) | (x & 0x3FF)) as nat == (q << 10) as nat + (x & 0x3FF) as nat
    ensures (x & 0x3FF) as nat < 0x400
  {
  }

  lemma MachineRemainder(x: nat, q: nat, r: nat)
    requires x == q * 0x400 + r && r < 0x400
    ensures x % 0x400 == r
  {
  }

  lemma MachineMask(x: bv64)
    ensures (x & 0x3FF) as nat == x as nat % 0x400
  {
    var q := MachineParts(x);
    MachineJoin(q, x);
    MachineRemainder(x as nat, q as nat, (x & 0x3FF) as nat);
  }

  /** What the shifts, masks and disjunctions make of the three fields is the packed number. */
  lemma WordIsPack(t: bv64, machine: bv64, sequence: bv64)
    requires Fits(t as nat)
    ensures Word(t, machine, sequence) as nat == Pack(t as nat, machine as nat, sequence as nat)
  {
    OrIsSum(t, machine, sequence);
    ClockShift(t);
    FieldShift(machine);
    MachineMask(machine);
    SequenceMask(sequence);
  }

  lemma WordOf(t: bv64, machine: bv64, sequence: bv64, tn: nat, mn: nat, sn: nat)
    requires t as nat == tn && machine as nat == mn && sequence as nat == sn && Fits(tn)
    ensures Word(t, machine, sequence) as nat == Pack(tn, mn, sn)
  {
    WordIsPack(t, machine, sequence);
  }

  // ---- drawing an id ----

  datatype Flake = Flake(machine: nat, sequence: nat, last: nat)

  /** One call on the readings that the clock will give: the id, the new state and the readings used.
      There is no id if the readings end while the call waits for the next millisecond. */
  function Draw(f: Flake, clock: seq<nat>): (r: Option<(nat, Flake, nat)>)
    ensures r.Some? ==> 0 < r.value.2 <= |clock|
  {
    if clock == [] then None
    else
      var value := Base(clock[0], f.machine);
      var sequence := (if f.last != value then 0 else f.sequence) + 1;
      if sequence < 0x1000 then Some((value + sequence % 0x1000, f.(sequence := sequence, last := value), 1))
      else
        var k := FirstOther(f.machine, value, clock, 1);
        if k == |clock| then None
        else
          var later := Base(clock[k], f.machine);
          Some((later, f.(sequence := 0, last := later), k + 1))
  }

  /** The first reading from `k` on that packs to another word. */
  function FirstOther(machine: nat, value: nat, clock: seq<nat>, k: nat): (r: nat)
    requires k <= |clock|
    ensures k <= r <= |clock| && (r < |clock| ==> Base(clock[r], machine) != value)
    ensures forall i :: k <= i < r ==> Base(clock[i], machine) == value
    decreases |clock| - k
  {
    if k == |clock| || Base(clock[k], machine) != value then k else FirstOther(machine, value, clock, k + 1)
  }

  class SnowFlake {
    var machine: nat
    var sequence: nat
    var lastTimestamp: nat

    function State(): Flake
      reads this
    {
      Flake(machine, sequence, lastTimestamp)
    }

    constructor (m: nat)
      ensures State() == Flake(m, 0, 0)
    {
      machine, sequence, lastTimestamp := m, 0, 0;
    }

    method Generate(clock: seq<nat>) returns (id: Option<nat>, used: nat)
      modifies this
      ensures match Draw(old(State()), clock)
              case None => id.None?
              case Some(r) => id == Some(r.0) && State() == r.1 && used == r.2
    {
      if clock == [] {
        return None, 0;
      }
      used := 1;
      var value := Base(clock[0], machine);
      if lastTimestamp != value {
        sequence := 0;
        lastTimestamp := value;
      }
      sequence := sequence + 1;
      if sequence >= 0x1000 {
        while true
          invariant 1 <= used <= |clock| && machine == old(machine) && lastTimestamp == Base(clock[0], machine)
          invariant FirstOther(machine, lastTimestamp, clock, used) == FirstOther(machine, lastTimestamp, clock, 1)
          decreases |clock| - used
        {
          if used == |clock| {
            return None, used;
          }
          value := Base(clock[used], machine);
          used := used + 1;
          if lastTimestamp != value { break; }
        }
        sequence := 0;
        lastTimestamp := value;
      }
      value := value + sequence % 0x1000;
      id := Some(value);
    }
  }

  // ---- ids increase ----

  predicate Monotone(clock: seq<nat>) {
    && (forall i :: 0 <= i < |clock| ==> Fits(clock[i]))
    && forall i, j :: 0 <= i < j < |clock| ==> clock[i] <= clock[j]
  }

  /** The state right after an id was drawn at time `t`. */
  predicate Drawn(f: Flake, t: nat, id: nat) {
    Fits(t) && f.sequence < 0x1000 && f.last == Base(t, f.machine) && id == Pack(t, f.machine, f.sequence)
  }

  lemma DrawLeaves(f: Flake, clock: seq<nat>)
    requires f.sequence < 0x1000 && Monotone(clock) && Draw(f, clock).Some?
    ensures var r := Draw(f, clock).value;
            Drawn(r.1, clock[r.2 - 1], r.0) && r.1.machine == f.machine && Monotone(clock[r.2..])
  {
    var r := Draw(f, clock).value;
  }

  /** An id drawn is the machine word of the reading that it was drawn at. */
  lemma DrawIsWord(f: Flake, clock: seq<nat>, t: bv64, machine: bv64, sequence: bv64)
    requires f.sequence < 0x1000 && Monotone(clock) && Draw(f, clock).Some?
    ensures var r := Draw(f, clock).value;
            t as nat == clock[r.2 - 1] && machine as nat == f.machine && sequence as nat == r.1.sequence
            ==> r.0 == Word(t, machine, sequence) as nat
  {
    var r := Draw(f, clock).value;
    DrawLeaves(f, clock);
    if t as nat == clock[r.2 - 1] && machine as nat == f.machine && sequence as nat == r.1.sequence {
      WordOf(t, machine, sequence, clock[r.2 - 1], f.machine, r.1.sequence);
    }
  }

  lemma DrawGrows(f: Flake, t: nat, id: nat, clock: seq<nat>)
    requires Drawn(f, t, id) && Monotone(clock) && Draw(f, clock).Some? && t <= clock[0]
    ensures id < Draw(f, clock).value.0
  {
    var r := Draw(f, clock).value;
    DrawLeaves(f, clock);
    assert t <= clock[0] <= clock[r.2 - 1];
  }

  /** All ids drawn from a state while the clock gives these readings. */
  function Ids(f: Flake, clock: seq<nat>): seq<nat>
    decreases |clock|
  {
    match Draw(f, clock)
    case None => []
    case Some(r) => [r.0] + Ids(r.1, clock[r.2..])
  }

  lemma {:induction false} IdsAbove(f: Flake, t: nat, id: nat, clock: seq<nat>)
    requires Drawn(f, t, id) && Monotone(clock) && (clock != [] ==> t <= clock[0])
    ensures forall i :: 0 <= i < |Ids(f, clock)| ==> id < Ids(f, clock)[i]
    decreases |clock|
  {
    if Draw(f, clock).Some? {
      var r := Draw(f, clock).value;
      DrawGrows(f, t, id, clock);
      DrawLeaves(f, clock);
      IdsAbove(r.1, clock[r.2 - 1], r.0, clock[r.2..]);
    }
  }

  /** Over any run with a clock that never goes back, ids are strictly increasing, across sequence
      overflow too. */
  lemma {:induction false} IdsIncrease(f: Flake, clock: seq<nat>)
    requires f.sequence < 0x1000 && Monotone(clock)
    ensures forall i, j :: 0 <= i < j < |Ids(f, clock)| ==> Ids(f, clock)[i] < Ids(f, clock)[j]
    decreases |clock|
  {
    if Draw(f, clock).Some? {
      var r := Draw(f, clock).value;
      DrawLeaves(f, clock);
      IdsAbove(r.1, clock[r.2 - 1], r.0, clock[r.2..]);
      IdsIncrease(r.1, clock[r.2..]);
    }
  }

  /** While the clock stands still the sequence counts from one, up to 4095; then the call waits. */
  lemma {:induction false} IdsOfOneTick(f: Flake, t: nat, n: nat)
    requires f.last == Base(t, f.machine) && f.sequence < 0x1000
    ensures var m := if n < 0xFFF - f.sequence then n else 0xFFF - f.sequence;
            Ids(f, seq(n, _ => t)) == seq(m, (i: nat) => Pack(t, f.machine, f.sequence + 1 + i))
    decreases n
  {
    var clock := seq(n, _ => t);
    if n > 0 && f.sequence < 0xFFF {
      var f' := f.(sequence := f.sequence + 1);
      assert Draw(f, clock) == Some((Pack(t, f.machine, f.sequence + 1), f', 1));
      assert clock[1..] == seq(n - 1, _ => t);
      IdsOfOneTick(f', t, n - 1);
    }
  }

  /** The first reading of another millisecond starts the count again, at one, or at zero for a call that
      has waited for it. */
  lemma NextTick(f: Flake, clock: seq<nat>, k: nat)
    requires k < |clock| && (forall i :: 0 <= i < k ==> Base(clock[i], f.machine) == f.last) && Base(clock[k], f.machine) != f.last
    requires f.sequence < 0x1000 && (k == 0 || f.sequence == 0xFFF)
    ensures Draw(f, clock).Some?
    ensures var r := Draw(f, clock).value;
            r.0 == Pack(clock[k], f.machine, if k == 0 then 1 else 0) && r.2 == k + 1 && r.1.last == Base(clock[k], f.machine)
  {
    if k > 0 {
      var j := FirstOther(f.machine, f.last, clock, 1);
      assert j == k;
    }
  }

  // ---- the age test ----

  /** The test of the timeout scan: a subtraction of unsigned 64-bit words. */
  predicate Fires(n: nat, id: nat) { (n - id) % 0x1_0000_0000_0000_0000 > 15000 * 0x40_0000 }

  /** The bits below the clock. */
  function Low(machine: nat, sequence: nat): nat { machine % 0x400 * 0x1000 + sequence % 0x1000 }

  /** For an id that is not from the future the test is on the age in milliseconds, ties broken by the
      bits below the clock; an id from the future always times out. */
  lemma AgeTest(tn: nat, mn: nat, sn: nat, ti: nat, mi: nat, si: nat)
    requires Fits(tn) && Fits(ti)
    ensures var n, id := Pack(tn, mn, sn), Pack(ti, mi, si);
            Fires(n, id) <==> n < id || tn - ti > 15000 || (tn - ti == 15000 && Low(mn, sn) > Low(mi, si))
  {
    var n: int, id: int := Pack(tn, mn, sn), Pack(ti, mi, si);
    assert n - id == (tn - ti) * 0x40_0000 + Low(mn, sn) - Low(mi, si);
    assert n >= id ==> (n - id) % 0x1_0000_0000_0000_0000 == n - id;
    assert n < id ==> (n - id) % 0x1_0000_0000_0000_0000 == n - id + 0x1_0000_0000_0000_0000;
  }

  /** The clock reading inside an id. */
  function TimeOf(id: nat): nat { id / 0x40_0000 }

  lemma {:induction false} IdsFit(f: Flake, clock: seq<nat>)
    requires f.sequence < 0x1000 && Monotone(clock)
    ensures forall i :: 0 <= i < |Ids(f, clock)| ==> Ids(f, clock)[i] < 0x8000_0000_0000_0000
    decreases |clock|
  {
    if Draw(f, clock).Some? {
      var r := Draw(f, clock).value;
      DrawLeaves(f, clock);
      IdsFit(r.1, clock[r.2..]);
    }
  }

  /** The scan draws one id and compares it with those of the requests. A request drawn before it times
      out only when it is at least 15000 ms old, and always when it is older; one drawn after it, while
      the scan is under way, always does, whatever its age. */
  lemma ScanByAge(f: Flake, clock: seq<nat>, i: nat, j: nat)
    requires f.sequence < 0x1000 && Monotone(clock) && i < |Ids(f, clock)| && j < |Ids(f, clock)|
    ensures var id, n := Ids(f, clock)[i], Ids(f, clock)[j];
            && (i <= j && Fires(n, id) ==> TimeOf(n) - TimeOf(id) >= 15000)
            && (i <= j && TimeOf(n) - TimeOf(id) > 15000 ==> Fires(n, id))
            && (j < i ==> Fires(n, id))
  {
    IdsIncrease(f, clock);
    IdsFit(f, clock);
    if i < j {
      AgeOf(Ids(f, clock)[i], Ids(f, clock)[j]);
    } else if j < i {
      FutureOf(Ids(f, clock)[i], Ids(f, clock)[j]);
    }
  }

  lemma FutureOf(id: nat, n: nat)
    requires n < id < 0x8000_0000_0000_0000
    ensures Fires(n, id)
  {
    var d: int := n as int - id as int;
    assert d % 0x1_0000_0000_0000_0000 == d + 0x1_0000_0000_0000_0000;
  }

  lemma AgeOf(id: nat, n: nat)
    requires id < n < 0x8000_0000_0000_0000
    ensures Fires(n, id) ==> TimeOf(n) - TimeOf(id) >= 15000
    ensures TimeOf(n) - TimeOf(id) > 15000 ==> Fires(n, id)
  {
    assert (n - id) % 0x1_0000_0000_0000_0000 == n - id;
  }
}
