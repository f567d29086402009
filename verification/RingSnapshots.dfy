/**
 What becomes of the ring's answers at the edge of their assumptions: states in which a stale thread
 breaks the bounds or is refused wrongly, and counts whose two reads lie apart.
 */
module RingSnapshots {
  import opened Bits
  import opened RingSteps
  import opened RingInvariant
  import opened RingTheorems
  import RingQueue

  // ------------------------------------------------------ stale threads

  /** A ring of two units after 2^32 enqueues, with one thread that read the producer head before the first. */
  function StaleState(pc: Pc, put: nat, taken: nat): State
    requires taken <= put
  {
    State(Ring(1, Counters(put % U32, put % U32), Counters(taken % U32, taken % U32), [0, 0]), [pc],
          Counters(put, put), Counters(taken, taken), map[],
          seq(put, i => 0), seq(taken, i => 0))
  }

  lemma StaleStateOk(pc: Pc, put: nat, taken: nat)
    requires taken <= put <= taken + 1 && !pc.InFlight() && ThreadOk(StaleState(pc, put, taken), 0)
    ensures Inv(StaleState(pc, put, taken))
  {
    var s := StaleState(pc, put, taken);
    assert Pow2(1) == 2;
    assert s.returned == s.claimed[..s.consumer.tail];
  }

  /** The swap of a thread that slept through exactly 2^32 claims does succeed, and passes the limit. */
  lemma StaleSwapPassesLimit()
    ensures var s := StaleState(Swap(Enqueue(0), 0, 0), U32, U32 - 1);
      Inv(s) && Enabled(s, Run(0)) && !Awake(s, Run(0)) && !Ordered(Apply(s, Run(0)))
  {
    var pc := Swap(Enqueue(0), 0, 0);
    StaleStateOk(pc, U32, U32 - 1);
    SwapBreaksOrderWhenStale(StaleState(pc, U32, U32 - 1), 0);
  }

  /** A thread that slept through 2^32 - 1 claims is told the ring is full although it is empty. */
  lemma StaleRefusalIsFalse()
    ensures var s := StaleState(ReadTail(Enqueue(0), 0, 0), U32 - 1, U32 - 1);
      Inv(s) && Enabled(s, Run(0)) && !Fresh(s, Run(0)) && Refuses(s, 0) && !AtLimit(s, Producer) && Contents(s) == []
  {
    var pc := ReadTail(Enqueue(0), 0, 0);
    StaleStateOk(pc, U32 - 1, U32 - 1);
    RefusalIsExact(StaleState(pc, U32 - 1, U32 - 1), 0);
  }

  // ------------------------------------------------------ counts

  /** Tails only move forward, and the mask never changes. */
  lemma StepGrows(s: State, m: Move)
    requires |s.ring.nodes| > s.ring.mask && Enabled(s, m)
    ensures var s' := Apply(s, m);
      s'.ring.mask == s.ring.mask && s'.producer.tail >= s.producer.tail && s'.consumer.tail >= s.consumer.tail
  {
  }

  lemma {:induction false} TailsGrow(states: seq<State>, moves: seq<Move>, j: nat, k: nat)
    requires IsPath(states, moves) && j <= k < |states|
    ensures states[k].ring.mask == states[j].ring.mask
    ensures states[j].producer.tail <= states[k].producer.tail && states[j].consumer.tail <= states[k].consumer.tail
  {
    hide Apply, Awake, Enabled;
    if j < k {
      TailsGrow(states, moves, j, k - 1);
      assert IsStep(states[k - 1], moves[k - 1], states[k - 1 + 1]);
      StepGrows(states[k - 1], moves[k - 1]);
    }
  }

  /** QueueCountGet over a run: the producer's tail is read in one state, the consumer's in a later one. */
  function CountBetween(first: State, second: State): nat
  {
    var p: int := first.ring.producer.tail;
    And(Wrap32(p - second.ring.consumer.tail), first.ring.mask)
  }

  /**
   The count is the number of nodes published at the first read and not released at the second, and so no
   more than what waited at either; unless by the second read more was released than had been published
   at the first, in which case it is that difference modulo the number of units. Both ways it is exact.
   */
  lemma CountBetweenReads(states: seq<State>, moves: seq<Move>, j: nat, k: nat)
    requires IsRun(states, moves) && j <= k < |states|
    ensures var a, b, units := states[j], states[k], states[j].ring.mask + 1;
      var count, published, released := CountBetween(a, b), a.producer.tail, b.consumer.tail;
      && count == (published - released) % units
      && (count == published - released <==> released <= published)
      && (released <= published ==>
          count <= a.producer.tail - a.consumer.tail && count <= b.producer.tail - b.consumer.tail)
  {
    RunInvariant(states, moves, j);
    RunInvariant(states, moves, k);
    TailsGrow(states, moves, j, k);
    var a, b := states[j], states[k];
    DifferenceOf(a.producer.tail, b.consumer.tail, a.ring.mask + 1);
  }

  lemma WrappedDifference(p: nat, c: nat)
    ensures var d: int := p - c; Wrap32(p % U32 - c % U32) == d % U32
  {
    var d: int := p - c;
    DivMod(p, U32);
    DivMod(c, U32);
    ModOfSum(c / U32 - p / U32, U32, d);
    assert p % U32 - c % U32 == (c / U32 - p / U32) * U32 + d;
  }

  /** Going through 2^32 does not change a remainder by a power of two below it. */
  lemma RemainderThrough32(d: int, units: nat)
    requires 1 <= units < U32 && IsPow2(units)
    ensures (d % U32) % units == d % units
  {
    var t := UnitsDivide(units);
    DivMod(d, U32);
    var q, h := d / U32, d % U32;
    ModOfSum(q * t, units, h);
    MulAssociates(q, t, units);
  }

  lemma MulAssociates(q: int, t: int, units: int)
    ensures q * t * units == q * (t * units)
  {
  }

  lemma SmallOrNegative(d: int, units: nat)
    requires d < units
    ensures units > 0 ==> (d % units == d <==> 0 <= d)
  {
    if 0 <= d { ModUnique(d, units, 0, d); }
  }

  /** The wrapped difference of two residues, masked, is the true difference modulo the number of units. */
  lemma DifferenceOf(p: nat, c: nat, units: nat)
    requires 1 <= units < U32 && IsPow2(units) && p < c + units
    ensures var d: int := p - c;
      And(Wrap32(p % U32 - c % U32), units - 1) == d % units && (d % units == d <==> 0 <= d)
  {
    hide And, Wrap32;
    var d: int := p - c;
    WrappedDifference(p, c);
    WrapIsSmall(d);
    SlotOfCounter(d % U32, units);
    RemainderThrough32(d, units);
    SmallOrNegative(d, units);
  }

  lemma WrapIsSmall(d: int)
    ensures d % U32 % U32 == d % U32
  {
  }

  lemma UnitsDivide(units: nat) returns (t: nat)
    requires units < U32 && IsPow2(units)
    ensures U32 == t * units
  {
    var k: nat :| units == Pow2(k);
    Pow2Exponent(k);
    Pow2Of32();
    Pow2Add(32 - k, k);
    t := Pow2(32 - k);
  }

  /**
   QueueIsEmpty over a run: it answers empty exactly if, at the second read, all that had been published at
   the first was released, or a whole number of ring lengths more than that.
   */
  lemma EmptyBetweenReads(states: seq<State>, moves: seq<Move>, j: nat, k: nat)
    requires IsRun(states, moves) && j <= k < |states|
    ensures var units, published, released := states[j].ring.mask + 1, states[j].producer.tail, states[k].consumer.tail;
      CountBetween(states[j], states[k]) == 0
      <==> if released <= published then released == published else (released - published) % units == 0
  {
    CountBetweenReads(states, moves, j, k);
    var d: int := states[k].consumer.tail - states[j].producer.tail;
    NegatedMultiple(d, states[j].ring.mask + 1);
  }

  lemma NegatedMultiple(d: int, units: nat)
    requires units > 0
    ensures d % units == 0 <==> (-d) % units == 0
  {
    DivMod(d, units);
    DivMod(-d, units);
    if d % units == 0 { ModUnique(-d, units, -(d / units), 0) by { assert -(d / units) * units == -d; } }
    if (-d) % units == 0 { ModUnique(d, units, -(-d / units), 0) by { assert -(-d / units) * units == d; } }
  }
}
