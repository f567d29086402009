/** What the ring promises over whole runs: bounds, FIFO order, exact refusals, and progress. */
module RingTheorems {
  import opened Bits
  import opened RingSteps
  import opened RingInvariant
  import RingQueue

  /** Consecutive states joined by moves, in which no thread sleeps through 2^32 claims before its swap. */
  ghost predicate IsPath(states: seq<State>, moves: seq<Move>)
  {
    && |states| == |moves| + 1
    && forall j: nat :: j < |moves| ==> IsStep(states[j], moves[j], states[j + 1])
  }

  ghost predicate IsStep(s: State, m: Move, s': State)
  {
    |s.ring.nodes| > s.ring.mask && Enabled(s, m) && Awake(s, m) && s' == Apply(s, m)
  }

  ghost predicate IsRun(states: seq<State>, moves: seq<Move>)
  {
    IsPath(states, moves) && Init(states[0])
  }

  /** Every state of every run satisfies the invariant, whatever the interleaving. */
  lemma {:induction false} RunInvariant(states: seq<State>, moves: seq<Move>, j: nat)
    requires IsRun(states, moves) && j < |states|
    ensures Inv(states[j])
  {
    if j == 0 {
      InitInv(states[0]);
    } else {
      RunInvariant(states, moves, j - 1);
      assert IsStep(states[j - 1], moves[j - 1], states[j]);
      StepInv(states[j - 1], moves[j - 1]);
    }
  }

  /** The counters stay in order and within the ring, and the uint32 fields are their residues. */
  lemma CountersInOrder(states: seq<State>, moves: seq<Move>, j: nat)
    requires IsRun(states, moves) && j < |states|
    ensures var s := states[j];
      && s.consumer.tail <= s.consumer.head <= s.producer.tail <= s.producer.head <= s.consumer.tail + s.ring.mask
      && ResidueOf(s.ring.producer, s.producer) && ResidueOf(s.ring.consumer, s.consumer)
  {
    RunInvariant(states, moves, j);
  }

  /** A compare-and-swap succeeds exactly when the head has moved by a multiple of 2^32 since it was read. */
  lemma SwapIsExact(s: State, i: nat)
    requires Inv(s) && i < |s.threads| && s.threads[i].Swap?
    ensures var pc := s.threads[i]; var side := pc.op.Side(); var moved := s.Of(side).head - pc.g;
      && (s.ring.Of(side).head == pc.h <==> moved % U32 == 0)
      && (moved < U32 ==> (s.ring.Of(side).head == pc.h <==> moved == 0))
      && Apply(s, Run(i)).Of(side).head == s.Of(side).head + (if moved % U32 == 0 then 1 else 0)
      && Apply(s, Run(i)).threads[i] == if moved % U32 == 0 then Slot(pc.op, pc.h, s.Of(side).head) else ReadHead(pc.op)
  {
    assert ThreadOk(s, i);
    EqualResidues(s.threads[i].g, s.Of(s.threads[i].op.Side()).head);
  }

  /** Without the scheduling assumption a swap breaks the bounds exactly when it succeeds with no room left. */
  lemma SwapBreaksOrderWhenStale(s: State, i: nat)
    requires Inv(s) && i < |s.threads| && s.threads[i].Swap?
    ensures var pc := s.threads[i]; var side := pc.op.Side();
      !Ordered(Apply(s, Run(i))) <==> (s.Of(side).head - pc.g) % U32 == 0 && AtLimit(s, side)
  {
    assert ThreadOk(s, i);
    SwapIsExact(s, i);
  }

  /** QueueCountGet on a snapshot: the number of published nodes not yet released. */
  lemma CountIsExact(s: State)
    requires Inv(s)
    ensures And(Wrap32(s.ring.producer.tail - s.ring.consumer.tail), s.ring.mask) == s.producer.tail - s.consumer.tail
  {
    RingQueue.Held(s.producer.tail, s.consumer.tail);
    RingQueue.MaskKeeps(s.producer.tail - s.consumer.tail, s.ring.mask + 1);
  }

  // ------------------------------------------------------ QUEUE_FULL and QUEUE_EMPTY

  /** Producer: mask claims are not yet released. Consumer: every published node is already claimed. */
  predicate AtLimit(s: State, side: Side)
  {
    s.Of(side).head == s.Limit(side)
  }

  /** The next step of the thread ends its operation without a claim: QUEUE_FULL or QUEUE_EMPTY. */
  predicate Refuses(s: State, i: nat)
    requires |s.ring.nodes| > s.ring.mask
  {
    i < |s.threads| && s.threads[i].ReadTail? && Apply(s, Run(i)).threads[i].Idle?
  }

  /**
   QUEUE_FULL and QUEUE_EMPTY are truthful at the moment the opposite tail is read exactly when the
   distance from the head value read to the limit has not wrapped to a positive multiple of 2^32
   while room was left.
   */
  lemma RefusalIsExact(s: State, i: nat)
    requires Inv(s) && i < |s.threads| && s.threads[i].ReadTail?
    ensures var pc := s.threads[i]; var side := pc.op.Side(); var room := s.Limit(side) - pc.g;
      && room >= 0
      && (Refuses(s, i) <==> room % U32 == 0)
      && (room == 0 ==> Refuses(s, i) && AtLimit(s, side))
      && (0 < room < U32 ==> !Refuses(s, i))
      && (!Refuses(s, i) ==> Apply(s, Run(i)).threads[i] == Swap(pc.op, pc.h, pc.g))
  {
    assert ThreadOk(s, i);
    AvailableIs(s, s.threads[i].op, s.threads[i].h, s.threads[i].g);
  }

  /** The head was read fewer than 2^32 - mask claims ago. */
  predicate Fresh(s: State, m: Move)
    requires Enabled(s, m)
  {
    m.Run? && s.threads[m.i].ReadTail? ==>
      s.Of(s.threads[m.i].op.Side()).head - s.threads[m.i].g + s.ring.mask < U32
  }

  /** A refusal in a run is truthful even though the head value it used may be stale. */
  lemma RefusalIsTruthful(states: seq<State>, moves: seq<Move>, j: nat)
    requires IsRun(states, moves) && j < |moves|
    requires Enabled(states[j], moves[j]) && Fresh(states[j], moves[j])
    requires |states[j].ring.nodes| > states[j].ring.mask && moves[j].Run? && Refuses(states[j], moves[j].i)
    ensures AtLimit(states[j], states[j].threads[moves[j].i].op.Side())
  {
    RunInvariant(states, moves, j);
    assert ThreadOk(states[j], moves[j].i);
    RefusalIsExact(states[j], moves[j].i);
  }

  // ------------------------------------------------------ FIFO

  /** The published nodes no consumer has claimed. */
  function Contents(s: State): seq<Node>
    requires s.consumer.head <= s.producer.tail <= |s.claimed|
  {
    s.claimed[s.consumer.head..s.producer.tail]
  }

  /** The effect a step has on a bounded first-in first-out queue. */
  datatype Effect = Quiet | Put(node: Node) | Get(node: Node) | SawEmpty | SawFull(inFlight: nat)

  function EffectOf(s: State, m: Move): Effect
    requires Enabled(s, m) && |s.ring.nodes| > s.ring.mask
  {
    if m.Start? then Quiet else
    match s.threads[m.i]
    case StoreTail(Enqueue(v), _, _, _, _) => Put(v)
    case Swap(Dequeue, h, _) =>
      if s.ring.consumer.head == h && s.consumer.head < |s.claimed| then Get(s.claimed[s.consumer.head]) else Quiet
    case ReadTail(op, _, _) =>
      if !Refuses(s, m.i) then Quiet
      else if op.Dequeue? then SawEmpty
      else SawFull(Pending(s))
    case _ => Quiet
  }

  /** Claims made but not finished, on both sides. */
  function Pending(s: State): nat
  {
    (if s.producer.head >= s.producer.tail then s.producer.head - s.producer.tail else 0) +
    (if s.consumer.head >= s.consumer.tail then s.consumer.head - s.consumer.tail else 0)
  }

  /** A first-in first-out queue of the given capacity, some of which operations in flight may hold. */
  predicate FifoStep(capacity: nat, q: seq<Node>, e: Effect, q': seq<Node>)
  {
    match e
    case Quiet => q' == q
    case Put(v) => |q| < capacity && q' == q + [v]
    case Get(v) => q != [] && v == q[0] && q' == q[1..]
    case SawEmpty => q == [] && q' == q
    case SawFull(n) => |q| + n == capacity && q' == q
  }

  /** Every step of the ring is a step of the queue. */
  lemma StepRefinesFifo(s: State, m: Move)
    requires Inv(s) && Enabled(s, m) && Awake(s, m) && Fresh(s, m)
    ensures var s' := Apply(s, m);
      && s'.consumer.head <= s'.producer.tail <= |s'.claimed|
      && FifoStep(s.ring.mask, Contents(s), EffectOf(s, m), Contents(s'))
  {
    hide Apply, ThreadOk, SlotOk, Tiled, Owned, Residues;
    var s' := Apply(s, m);
    StepInv(s, m);
    StepPutsAndGets(s, m);
    StepKeepsMask(s, m);
    var e := EffectOf(s, m);
    if e.SawEmpty? || e.SawFull? { RefusalSeesLimit(s, m.i); }
    WindowMoves(s.claimed[..s.producer.tail], s.consumer.head, s'.claimed[..s'.producer.tail], s'.consumer.head, e);
  }

  lemma StepKeepsMask(s: State, m: Move)
    requires Inv(s) && Enabled(s, m)
    ensures Apply(s, m).ring.mask == s.ring.mask
  {
    hide Tiled, Owned, ThreadOk, SlotOk, Residues;
  }

  lemma RefusalSeesLimit(s: State, i: nat)
    requires Inv(s) && Enabled(s, Run(i)) && Fresh(s, Run(i)) && Refuses(s, i)
    ensures AtLimit(s, s.threads[i].op.Side())
    ensures s.threads[i].op.Dequeue? ==> |Contents(s)| == 0
    ensures s.threads[i].op.Enqueue? ==> |Contents(s)| + Pending(s) == s.ring.mask
  {
    assert ThreadOk(s, i);
    RefusalIsExact(s, i);
  }

  /** Adding at the back and dropping from the front of a log, seen through its window. */
  lemma WindowMoves(log: seq<Node>, first: nat, log': seq<Node>, first': nat, e: Effect)
    requires first <= |log| && first' <= |log'|
    requires log' == log + (if e.Put? then [e.node] else [])
    requires log'[..first'] == log[..first] + (if e.Get? then [e.node] else [])
    ensures e.Put? ==> log'[first'..] == log[first..] + [e.node]
    ensures e.Get? ==> log[first..] == [e.node] + log'[first'..]
    ensures !e.Put? && !e.Get? ==> log'[first'..] == log[first..]
  {
    assert |log'[..first']| == first';
    if e.Get? {
      assert log'[first] == log'[..first'][first] == e.node;
    }
  }

  ghost predicate AllFresh(states: seq<State>, moves: seq<Move>)
    requires IsPath(states, moves)
  {
    forall j: nat :: j < |moves| ==> IsStep(states[j], moves[j], states[j + 1]) && Fresh(states[j], moves[j])
  }

  /** Every run of the ring, step by step, is a run of a bounded queue that starts empty. */
  lemma RunRefinesFifo(states: seq<State>, moves: seq<Move>, j: nat)
    requires IsRun(states, moves) && AllFresh(states, moves) && j < |moves|
    ensures Inv(states[0]) && Contents(states[0]) == []
    ensures Inv(states[j]) && Inv(states[j + 1]) && Enabled(states[j], moves[j])
    ensures FifoStep(states[j].ring.mask, Contents(states[j]), EffectOf(states[j], moves[j]), Contents(states[j + 1]))
  {
    RunInvariant(states, moves, 0);
    RunInvariant(states, moves, j);
    RunInvariant(states, moves, j + 1);
    StepRefinesFifo(states[j], moves[j]);
  }

  /** The effects of a path, move by move. */
  ghost function Effects(states: seq<State>, moves: seq<Move>): (es: seq<Effect>)
    requires IsPath(states, moves)
  {
    seq(|moves|, j requires 0 <= j < |moves| =>
      assert IsStep(states[j], moves[j], states[j + 1]); EffectOf(states[j], moves[j]))
  }

  /** The nodes put, in order. */
  function Puts(es: seq<Effect>): seq<Node>
  {
    if es == [] then [] else
    var e := es[|es| - 1];
    Puts(es[..|es| - 1]) + if e.Put? then [e.node] else []
  }

  function Gets(es: seq<Effect>): seq<Node>
  {
    if es == [] then [] else
    var e := es[|es| - 1];
    Gets(es[..|es| - 1]) + if e.Get? then [e.node] else []
  }

  lemma {:induction false} PutsAndGets(states: seq<State>, moves: seq<Move>, n: nat)
    requires IsRun(states, moves) && n <= |moves|
    ensures Inv(states[n])
    ensures Puts(Effects(states, moves)[..n]) == states[n].claimed[..states[n].producer.tail]
    ensures Gets(Effects(states, moves)[..n]) == states[n].claimed[..states[n].consumer.head]
  {
    RunInvariant(states, moves, n);
    if n > 0 {
      PutsAndGets(states, moves, n - 1);
      var s, m := states[n - 1], moves[n - 1];
      assert IsStep(s, m, states[n]);
      StepPutsAndGets(s, m);
      var es := Effects(states, moves);
      PutsGetsExtend(es[..n - 1], EffectOf(s, m));
      assert es[..n - 1] + [EffectOf(s, m)] == es[..n];
    }
  }

  lemma PutsGetsExtend(es: seq<Effect>, e: Effect)
    ensures Puts(es + [e]) == Puts(es) + (if e.Put? then [e.node] else [])
    ensures Gets(es + [e]) == Gets(es) + (if e.Get? then [e.node] else [])
  {
    assert (es + [e])[..|es|] == es;
  }

  lemma StepPutsAndGets(s: State, m: Move)
    requires Inv(s) && Enabled(s, m) && Awake(s, m)
    ensures var s' := Apply(s, m); var e := EffectOf(s, m);
      && Inv(s')
      && s'.claimed[..s'.producer.tail] == s.claimed[..s.producer.tail] + (if e.Put? then [e.node] else [])
      && s'.claimed[..s'.consumer.head] == s.claimed[..s.consumer.head] + (if e.Get? then [e.node] else [])
  {
    StepInv(s, m);
    var s' := Apply(s, m);
    if m.Run? && s.threads[m.i].Swap? {
      StepClaims(s, m.i);
    } else if m.Run? && s.threads[m.i].StoreTail? {
      StepPublishes(s, m.i);
    } else {
      assert s'.claimed == s.claimed && s'.producer == s.producer && s'.consumer == s.consumer;
    }
  }

  lemma StepPublishes(s: State, i: nat)
    requires Inv(s) && i < |s.threads| && s.threads[i].StoreTail?
    ensures var s' := Apply(s, Run(i)); var e := EffectOf(s, Run(i));
      && s'.claimed == s.claimed && s'.consumer.head == s.consumer.head && !e.Get?
      && s.consumer.head <= s'.producer.tail <= s.producer.head == |s.claimed|
      && s.claimed[..s'.producer.tail] == s.claimed[..s.producer.tail] + (if e.Put? then [e.node] else [])
  {
    assert ThreadOk(s, i);
    assert Claim(s.threads[i].op.Side(), s.threads[i].g) in s.owner;
  }

  lemma StepClaims(s: State, i: nat)
    requires Inv(s) && i < |s.threads| && s.threads[i].Swap? && Awake(s, Run(i))
    ensures var s' := Apply(s, Run(i)); var e := EffectOf(s, Run(i));
      && s'.producer.tail == s.producer.tail && s'.consumer.head <= s'.producer.head == |s'.claimed|
      && s.claimed <= s'.claimed && !e.Put?
      && s'.claimed[..s'.consumer.head] == s.claimed[..s.consumer.head] + (if e.Get? then [e.node] else [])
  {
    assert ThreadOk(s, i);
    SwapIsExact(s, i);
  }

  /**
   The ring delivers in order, exactly once: what dequeues have returned is a prefix of what consumers
   claimed, which is a prefix of what producers published.
   */
  lemma DeliveredInOrder(states: seq<State>, moves: seq<Move>)
    requires IsRun(states, moves)
    ensures states[|moves|].returned <= Gets(Effects(states, moves)) <= Puts(Effects(states, moves))
  {
    PutsAndGets(states, moves, |moves|);
    assert Effects(states, moves)[..|moves|] == Effects(states, moves);
    var s := states[|moves|];
    assert s.claimed[..s.consumer.head] == s.claimed[..s.producer.tail][..s.consumer.head];
    assert s.claimed[..s.consumer.tail] == s.claimed[..s.consumer.head][..s.consumer.tail];
  }

  /** A dequeue hands its caller the node stored by the producer claim with the same number. */
  lemma DequeueReturnsItsTicket(states: seq<State>, moves: seq<Move>, j: nat, i: nat)
    requires IsRun(states, moves) && j < |states| && i < |states[j].threads|
    requires states[j].threads[i].StoreTail? && states[j].threads[i].op.Dequeue?
    ensures var s := states[j]; var pc := s.threads[i];
      pc.g == |s.returned| < |s.claimed| && pc.x == s.claimed[pc.g]
  {
    RunInvariant(states, moves, j);
    assert ThreadOk(states[j], i);
  }

  // ------------------------------------------------------ claims in flight

  /** Each ticket between tail and head is held by exactly one thread, and only those tickets are held. */
  lemma ClaimsTile(s: State, side: Side, ticket: nat)
    requires Inv(s)
    ensures s.Of(side).tail <= ticket < s.Of(side).head <==> exists i: nat :: Holds(s, i, Claim(side, ticket))
    ensures forall i: nat, j: nat :: Holds(s, i, Claim(side, ticket)) && Holds(s, j, Claim(side, ticket)) ==> i == j
  {
    var c := Claim(side, ticket);
    forall i: nat | Holds(s, i, c) ensures c in s.owner && s.owner[c] == i { assert ThreadOk(s, i); }
    if c in s.owner { assert Holds(s, s.owner[c], c); }
  }

  /** Two claims in flight, on either side, never touch the same slot. */
  lemma ClaimsUseDifferentSlots(s: State, i: nat, j: nat)
    requires Inv(s) && i < |s.threads| && j < |s.threads| && i != j
    requires s.threads[i].InFlight() && s.threads[j].InFlight()
    ensures And(s.threads[i].h, s.ring.mask) != And(s.threads[j].h, s.ring.mask)
  {
    assert ThreadOk(s, i) && ThreadOk(s, j);
    var a, b := s.threads[i], s.threads[j];
    assert Claim(a.op.Side(), a.g) in s.owner && Claim(b.op.Side(), b.g) in s.owner;
    SlotsDiffer(s, a.g, b.g);
    SlotOfCounter(a.g, s.ring.mask + 1);
    SlotOfCounter(b.g, s.ring.mask + 1);
  }

  /** So the unguarded `tail += 1` never runs in two threads of one side at once. */
  lemma OnePublisherPerSide(s: State, i: nat, j: nat)
    requires Inv(s) && i < |s.threads| && j < |s.threads|
    requires s.threads[i].LoadTail? || s.threads[i].StoreTail?
    requires s.threads[j].LoadTail? || s.threads[j].StoreTail?
    requires s.threads[i].op.Side() == s.threads[j].op.Side()
    ensures i == j
  {
    assert ThreadOk(s, i) && ThreadOk(s, j);
  }

  // ------------------------------------------------------ progress

  /** Steps a thread still has to take before it lets go of its claim. */
  function Rank(pc: Pc): nat
  {
    match pc
    case Slot(_, _, _) => 4
    case Wait(_, _, _, _) => 3
    case LoadTail(_, _, _, _) => 2
    case StoreTail(_, _, _, _, _) => 1
    case _ => 0
  }

  function Work(threads: seq<Pc>): nat
  {
    if threads == [] then 0 else Rank(threads[0]) + Work(threads[1..])
  }

  lemma {:induction false} WorkUpdate(threads: seq<Pc>, i: nat, pc: Pc)
    requires i < |threads|
    ensures Work(threads[i := pc]) == Work(threads) - Rank(threads[i]) + Rank(pc)
  {
    if i == 0 {
      assert threads[0 := pc][1..] == threads[1..];
    } else {
      WorkUpdate(threads[1..], i - 1, pc);
      assert threads[i := pc][1..] == threads[1..][i - 1 := pc];
    }
  }

  lemma {:induction false} WorkOfOne(threads: seq<Pc>, i: nat)
    requires i < |threads|
    ensures Work(threads) >= Rank(threads[i])
  {
    if i > 0 { WorkOfOne(threads[1..], i - 1); }
  }

  lemma {:induction false} WorkPositive(threads: seq<Pc>) returns (i: nat)
    requires Work(threads) > 0
    ensures i < |threads| && threads[i].InFlight()
  {
    if Rank(threads[0]) > 0 {
      i := 0;
    } else {
      i := WorkPositive(threads[1..]);
      i := i + 1;
    }
  }

  /** A step that takes no new claim never adds work; one by a thread in flight that is not a spin removes some. */
  lemma WorkShrinks(s: State, m: Move)
    requires Inv(s) && Enabled(s, m) && Awake(s, m)
    requires m.Run? && s.threads[m.i].Swap? ==> s.ring.Of(s.threads[m.i].op.Side()).head != s.threads[m.i].h
    ensures Work(Apply(s, m).threads) <= Work(s.threads)
    ensures m.Run? && s.threads[m.i].InFlight() && Apply(s, m) != s ==> Work(Apply(s, m).threads) < Work(s.threads)
  {
    var s' := Apply(s, m);
    if s' != s {
      assert s'.threads == s.threads[m.i := s'.threads[m.i]];
      WorkUpdate(s.threads, m.i, s'.threads[m.i]);
    }
  }

  /** While any claim is in flight some thread holding one can take a step that is not a spin. */
  lemma SomeClaimCanMove(s: State) returns (i: nat)
    requires Inv(s) && Work(s.threads) > 0
    ensures i < |s.threads| && s.threads[i].InFlight() && Apply(s, Run(i)) != s
  {
    var a := WorkPositive(s.threads);
    assert ThreadOk(s, a);
    var side := s.threads[a].op.Side();
    assert Claim(side, s.threads[a].g) in s.owner;
    var first := Claim(side, s.Of(side).tail);
    assert first in s.owner;
    i := s.owner[first];
    assert Holds(s, i, first) && ThreadOk(s, i);
    var s' := Apply(s, Run(i));
    assert s'.threads[i] != s.threads[i];
  }

  /** From every reachable state the claims in flight can finish without any new claim, in at most Work(s) steps. */
  lemma {:induction false} ClaimsDrain(s: State) returns (states: seq<State>, moves: seq<Move>)
    requires Inv(s)
    ensures IsPath(states, moves) && states[0] == s && |moves| <= Work(s.threads)
    ensures var e := states[|moves|];
      && Inv(e)
      && e.producer.head == e.producer.tail == s.producer.head
      && e.consumer.head == e.consumer.tail == s.consumer.head
    decreases Work(s.threads)
  {
    if Work(s.threads) == 0 {
      states, moves := [s], [];
      forall side: Side ensures s.Of(side).head == s.Of(side).tail { NothingInFlight(s, side); }
      assert s.Of(Producer) == s.producer && s.Of(Consumer) == s.consumer;
    } else {
      var i := SomeClaimCanMove(s);
      var s' := Apply(s, Run(i));
      WorkShrinks(s, Run(i));
      StepInv(s, Run(i));
      var rest, more := ClaimsDrain(s');
      states, moves := [s] + rest, [Run(i)] + more;
      forall j: nat | j < |moves| ensures IsStep(states[j], moves[j], states[j + 1]) {
        if j > 0 { assert IsStep(rest[j - 1], more[j - 1], rest[j]); }
      }
    }
  }

  lemma NothingInFlight(s: State, side: Side)
    requires Inv(s) && Work(s.threads) == 0
    ensures s.Of(side).head == s.Of(side).tail
  {
    if s.Of(side).tail < s.Of(side).head {
      var c := Claim(side, s.Of(side).tail);
      assert c in s.owner && Holds(s, s.owner[c], c);
      WorkOfOne(s.threads, s.owner[c]);
    }
  }
}
