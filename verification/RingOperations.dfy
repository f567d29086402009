/** What one operation does: how it ends, and that it does its work when no other claim is in flight. */
module RingOperations {
  import opened Bits
  import opened RingSteps
  import opened RingInvariant
  import opened RingTheorems

  /**
   A step moves its own thread only. The thread keeps to its operation until it is refused or has published,
   reads the head as it is, and spins exactly while its claim is not the oldest of its side.
   */
  lemma OperationSteps(s: State, i: nat)
    requires Inv(s) && Enabled(s, Run(i))
    ensures var s' := Apply(s, Run(i)); var pc, pc' := s.threads[i], s'.threads[i]; var side := pc.op.Side();
      && s'.threads == s.threads[i := pc']
      && (pc'.Idle? <==> Refuses(s, i) || pc.StoreTail?)
      && (!pc'.Idle? ==> pc'.op == pc.op)
      && (pc.ReadHead? ==> pc'.ReadTail? && pc'.g == s.Of(side).head && pc'.h == pc'.g % U32)
      && (pc.Wait? ==> (s' == s <==> pc.g != s.Of(side).tail))
  {
    hide Tiled, Owned, SlotOk;
    assert ThreadOk(s, i);
    if s.threads[i].Wait? {
      WaitsBetween(s, i);
      EqualResidues(s.Of(s.threads[i].op.Side()).tail, s.threads[i].g);
    }
  }

  /** A claim in flight lies less than 2^32 above its tail. */
  lemma WaitsBetween(s: State, i: nat)
    requires Inv(s) && i < |s.threads| && s.threads[i].InFlight()
    ensures var side, g := s.threads[i].op.Side(), s.threads[i].g; s.Of(side).tail <= g < s.Of(side).tail + U32
  {
    assert ThreadOk(s, i);
    assert Claim(s.threads[i].op.Side(), s.threads[i].g) in s.owner;
  }

  // ------------------------------------------------------ one thread runs alone

  /** The state after n moves of one thread that runs by itself. */
  ghost function Alone(s: State, i: nat, n: nat): State
  {
    if n == 0 then s else RunOnce(Alone(s, i, n - 1), i)
  }

  ghost function RunOnce(s: State, i: nat): State
  {
    if |s.ring.nodes| > s.ring.mask && Enabled(s, Run(i)) && Awake(s, Run(i)) then Apply(s, Run(i)) else s
  }

  /** A step by which only the thread gets further. */
  ghost predicate Glides(s: State, i: nat, pc: Pc)
    requires i < |s.threads|
  {
    var s' := RunOnce(s, i);
    && Inv(s') && s'.threads == s.threads[i := pc] && s'.ring.mask == s.ring.mask
    && s'.producer == s.producer && s'.consumer == s.consumer && s'.claimed == s.claimed && s'.returned == s.returned
  }

  lemma GlidesFrom(s: State, i: nat)
    requires Inv(s) && Enabled(s, Run(i)) && !s.threads[i].Swap? && !s.threads[i].StoreTail?
    ensures RunOnce(s, i) == Apply(s, Run(i)) && Glides(s, i, RunOnce(s, i).threads[i])
  {
    hide Inv;
    StepInv(s, Run(i));
    InvSize(s);
    StepKeepsRecords(s, i);
  }

  lemma InvSize(s: State)
    requires Inv(s)
    ensures |s.ring.nodes| > s.ring.mask && s.ring.mask < U32 && Ordered(s) && |s.claimed| == s.producer.head
  {
  }

  lemma StepKeepsRecords(s: State, i: nat)
    requires Enabled(s, Run(i)) && |s.ring.nodes| > s.ring.mask && !s.threads[i].Swap? && !s.threads[i].StoreTail?
    ensures var s' := Apply(s, Run(i));
      && s'.threads == s.threads[i := s'.threads[i]] && s'.ring.mask == s.ring.mask
      && s'.producer == s.producer && s'.consumer == s.consumer && s'.claimed == s.claimed && s'.returned == s.returned
  {
  }

  /** Head and opposite tail are read, and the operation goes on to its swap or is refused. */
  lemma ReadsBoth(s: State, i: nat)
    requires Inv(s) && i < |s.threads| && s.threads[i].ReadHead?
    ensures var op := s.threads[i].op; var g := s.Of(op.Side()).head; var s2 := RunOnce(RunOnce(s, i), i);
      && Inv(s2) && s2.threads == s.threads[i := if AtLimit(s, op.Side()) then Idle else Swap(op, g % U32, g)]
      && s2.ring.mask == s.ring.mask
      && s2.producer == s.producer && s2.consumer == s.consumer && s2.claimed == s.claimed && s2.returned == s.returned
  {
    hide Inv;
    InvSize(s);
    GlidesFrom(s, i);
    OperationSteps(s, i);
    var s1 := RunOnce(s, i);
    GlidesFrom(s1, i);
    RefusalIsExact(s1, i);
    assert s1.Limit(s1.threads[i].op.Side()) - s1.threads[i].g < U32;
  }

  /** An unmoved head is claimed. */
  lemma ClaimsHead(s: State, i: nat)
    requires Inv(s) && i < |s.threads| && s.threads[i].Swap? && s.threads[i].g == s.Of(s.threads[i].op.Side()).head
    ensures var op, g, s1 := s.threads[i].op, s.threads[i].g, RunOnce(s, i); var c := s.Of(op.Side());
      && Inv(s1) && s1.threads == s.threads[i := Slot(op, s.threads[i].h, g)] && s1.ring.mask == s.ring.mask
      && s1 == s1.With(op.Side(), c.(head := g + 1)) && s1.Limit(op.Side()) == s.Limit(op.Side())
      && s1.Of(op.Side()).tail == c.tail && s1.returned == s.returned
      && (op.Enqueue? ==> s1.consumer == s.consumer && s1.claimed == s.claimed + [op.node])
      && (op.Dequeue? ==> s1.producer == s.producer && s1.claimed == s.claimed)
  {
    StepInv(s, Run(i));
    assert ThreadOk(s, i);
  }

  /** The oldest claim of its side passes the slot and the wait, and is about to write the tail. */
  lemma PassesWait(s: State, i: nat)
    requires Inv(s) && i < |s.threads| && s.threads[i].Slot? && s.threads[i].g == s.Of(s.threads[i].op.Side()).tail
    ensures var op, g, s3 := s.threads[i].op, s.threads[i].g, Alone(s, i, 3);
      && Inv(s3) && |s3.threads| == |s.threads| && s3.threads == s.threads[i := s3.threads[i]]
      && s3.ring.mask == s.ring.mask && s3.threads[i].StoreTail? && s3.threads[i].op == op && s3.threads[i].g == g
      && s3.producer == s.producer && s3.consumer == s.consumer && s3.claimed == s.claimed && s3.returned == s.returned
  {
    hide Inv, RunOnce, Alone, Apply;
    var s1, s2 := RunOnce(s, i), RunOnce(RunOnce(s, i), i);
    AloneSteps(s, i);
    InvSize(s);
    GlidesFrom(s, i);
    SlotLeadsToWait(s, i);
    GlidesFrom(s1, i);
    WaitEnds(s1, i);
    GlidesFrom(s2, i);
    WaitEnds(s2, i);
  }

  lemma WaitEnds(s: State, i: nat)
    requires Inv(s) && Enabled(s, Run(i))
    requires s.threads[i].LoadTail? || (s.threads[i].Wait? && s.threads[i].g == s.Of(s.threads[i].op.Side()).tail)
    ensures var pc, pc' := s.threads[i], Apply(s, Run(i)).threads[i];
      pc'.op == pc.op && pc'.g == pc.g && if pc.Wait? then pc'.LoadTail? else pc'.StoreTail?
  {
    assert ThreadOk(s, i);
  }

  lemma SlotLeadsToWait(s: State, i: nat)
    requires Enabled(s, Run(i)) && |s.ring.nodes| > s.ring.mask && s.threads[i].Slot?
    ensures var pc := Apply(s, Run(i)).threads[i]; pc.Wait? && pc.op == s.threads[i].op && pc.g == s.threads[i].g
  {
  }

  /** The tail moves on and the operation is over. */
  lemma MovesTail(s: State, i: nat)
    requires Inv(s) && i < |s.threads| && s.threads[i].StoreTail?
    ensures var op, s1 := s.threads[i].op, RunOnce(s, i); var c := s.Of(op.Side());
      && Inv(s1) && s1.threads == s.threads[i := Idle] && s1.ring.mask == s.ring.mask && s1.claimed == s.claimed
      && s1.Of(op.Side()) == c.(tail := c.tail + 1)
      && (op.Enqueue? ==> s1.consumer == s.consumer)
      && (op.Dequeue? ==> s1.producer == s.producer)
  {
    StepInv(s, Run(i));
    assert ThreadOk(s, i);
  }

  lemma Starts(s: State, i: nat, op: Op)
    requires Inv(s) && i < |s.threads| && s.threads[i].Idle?
    ensures var s0 := Apply(s, Start(i, op)); Inv(s0) && s0 == s.(threads := s.threads[i := ReadHead(op)])
  {
    StepInv(s, Start(i, op));
  }

  lemma AloneSteps(s: State, i: nat)
    ensures Alone(s, i, 2) == RunOnce(RunOnce(s, i), i) && Alone(s, i, 3) == RunOnce(Alone(s, i, 2), i)
    ensures Alone(s, i, 7) == RunOnce(Alone(RunOnce(Alone(s, i, 2), i), i, 3), i)
  {
    hide RunOnce;
    assert Alone(s, i, 1) == RunOnce(s, i);
    var s3 := RunOnce(Alone(s, i, 2), i);
    assert Alone(s3, i, 1) == RunOnce(s3, i) == Alone(s, i, 4);
    assert Alone(s3, i, 2) == RunOnce(Alone(s3, i, 1), i) == Alone(s, i, 5);
    assert Alone(s3, i, 3) == RunOnce(Alone(s3, i, 2), i) == Alone(s, i, 6);
  }

  /** Reading both ends, the swap, and the way to the tail, put together. */
  lemma ClaimAlone(s: State, i: nat)
    requires Inv(s) && i < |s.threads| && s.threads[i].ReadHead?
    requires var side := s.threads[i].op.Side(); s.Of(side).head == s.Of(side).tail && !AtLimit(s, side)
    ensures var op, e := s.threads[i].op, Alone(s, i, 7); var c := s.Of(op.Side());
      && Inv(e) && e.threads == s.threads[i := Idle] && e.ring.mask == s.ring.mask
      && e.Of(op.Side()) == Counters(c.head + 1, c.tail + 1)
      && (op.Enqueue? ==> e.consumer == s.consumer && e.claimed == s.claimed + [op.node])
      && (op.Dequeue? ==> e.producer == s.producer && e.claimed == s.claimed)
  {
    hide Inv, RunOnce, Alone, AtLimit;
    AloneSteps(s, i);
    ReadsBoth(s, i);
    var s2 := Alone(s, i, 2);
    ClaimsHead(s2, i);
    var s3 := RunOnce(s2, i);
    PassesWait(s3, i);
    MovesTail(Alone(s3, i, 3), i);
  }

  /**
   An enqueue that starts when no claim is in flight and runs alone is refused after two steps if the queue
   holds `mask` nodes, and otherwise has put its node behind all others after seven.
   */
  lemma EnqueueAlone(s: State, i: nat, v: Node)
    requires Inv(s) && Work(s.threads) == 0 && i < |s.threads| && s.threads[i].Idle?
    ensures var s0, full := Apply(s, Start(i, Enqueue(v))), |Contents(s)| == s.ring.mask;
      var e := Alone(s0, i, if full then 2 else 7);
      && Inv(e) && e.threads == s.threads && e.returned == s.returned
      && Contents(e) == if full then Contents(s) else Contents(s) + [v]
  {
    hide Inv, Apply, RunOnce, Alone, Work;
    InvSize(s);
    Starts(s, i, Enqueue(v));
    Rests(s);
    var s0 := Apply(s, Start(i, Enqueue(v)));
    if AtLimit(s, Producer) {
      AloneSteps(s0, i);
      ReadsBoth(s0, i);
    } else {
      ClaimAlone(s0, i);
      ReturnedIs(Alone(s0, i, 7));
    }
  }

  /** A dequeue alone is refused if nothing waits, and otherwise returns the oldest node and takes it out. */
  lemma DequeueAlone(s: State, i: nat)
    requires Inv(s) && Work(s.threads) == 0 && i < |s.threads| && s.threads[i].Idle?
    ensures var s0, empty := Apply(s, Start(i, Dequeue)), Contents(s) == [];
      var e := Alone(s0, i, if empty then 2 else 7);
      && Inv(e) && e.threads == s.threads
      && Contents(e) == (if empty then [] else Contents(s)[1..])
      && e.returned == s.returned + if empty then [] else [Contents(s)[0]]
  {
    hide Inv, Apply, RunOnce, Alone, Work;
    InvSize(s);
    Starts(s, i, Dequeue);
    Rests(s);
    var s0 := Apply(s, Start(i, Dequeue));
    if AtLimit(s, Consumer) {
      AloneSteps(s0, i);
      ReadsBoth(s0, i);
    } else {
      ClaimAlone(s0, i);
      ReturnedIs(Alone(s0, i, 7));
    }
  }

  lemma ReturnedIs(s: State)
    requires Inv(s)
    ensures s.consumer.tail <= s.consumer.head <= s.producer.tail <= |s.claimed|
    ensures s.returned == s.claimed[..s.consumer.tail]
  {
  }

  /** With no claim in flight heads and tails agree. */
  lemma Rests(s: State)
    requires Inv(s) && Work(s.threads) == 0
    ensures s.producer.head == s.producer.tail == |s.claimed| && s.consumer.head == s.consumer.tail <= s.producer.tail
    ensures s.returned == s.claimed[..s.consumer.tail]
  {
    NothingInFlight(s, Producer);
    NothingInFlight(s, Consumer);
  }
}
