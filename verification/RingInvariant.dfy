/** Every step of every interleaving keeps the invariant of the ring. */
module RingInvariant {
  import opened Bits
  import opened RingSteps

  /** pc keeps the claim old holds, if any. */
  predicate SameClaim(old_: Pc, pc: Pc)
  {
    && old_.InFlight() == pc.InFlight()
    && (pc.InFlight() ==> pc.op == old_.op && pc.g == old_.g)
    && (pc.InFlight() && pc.op.Enqueue? && old_.Slot? ==> pc.Slot?)
  }

  /** A step that touches only its own thread. */
  lemma ThreadMove(s: State, i: nat, pc: Pc)
    requires Inv(s) && i < |s.threads| && SameClaim(s.threads[i], pc)
    requires ThreadOk(s.(threads := s.threads[i := pc]), i)
    ensures Inv(s.(threads := s.threads[i := pc]))
  {
    var s' := s.(threads := s.threads[i := pc]);
    forall j: nat | j < |s'.threads| ensures ThreadOk(s', j) {
      assert ThreadOk(s, j);
    }
    forall c: Claim | c in s'.owner ensures Holds(s', s'.owner[c], c) {
      assert Holds(s, s.owner[c], c);
    }
    forall k: nat | s'.consumer.tail <= k < s'.producer.head ensures SlotOk(s', k) {
      assert SlotOk(s, k);
      if Stored(s', k) && k >= s.producer.tail {
        assert Holds(s, s.owner[Claim(Producer, k)], Claim(Producer, k));
        assert Stored(s, k);
      }
    }
  }

  /** availableCount is zero only if the head read has reached its limit, or the difference wrapped. */
  lemma AvailableIs(s: State, op: Op, h: nat, g: nat)
    requires Inv(s) && h == g % U32 && g <= s.Of(op.Side()).head
    ensures g <= s.Limit(op.Side())
    ensures s.ring.Available(op.Side(), h) == (s.Limit(op.Side()) - g) % U32
  {
    var limit := s.Limit(op.Side());
    var low := if op.Enqueue? then s.ring.mask + s.ring.consumer.tail else s.ring.producer.tail;
    var d := if op.Enqueue? then s.consumer.tail / U32 else s.producer.tail / U32;
    assert low - h == (limit - g) + (g / U32 - d) * U32 by {
      DivMod(g, U32);
      DivMod(s.consumer.tail, U32);
      DivMod(s.producer.tail, U32);
    }
    ModOfSum(g / U32 - d, U32, limit - g);
  }

  /** Two unbounded values less than 2^32 apart are equal if their residues are. */
  lemma SameResidue(a: nat, b: nat)
    requires a % U32 == b % U32 && a <= b < a + U32
    ensures a == b
  {
    if a < b { ResiduesDiffer(a, b, U32); }
  }

  ghost predicate CanTake(s: State, i: nat)
  {
    Inv(s) && i < |s.threads| && s.threads[i].Swap? && s.threads[i].g == s.Of(s.threads[i].op.Side()).head
  }

  function Taken(s: State, i: nat): State
    requires i < |s.threads| && s.threads[i].Swap?
  {
    TakeClaim(s, i, s.threads[i].op, s.threads[i].h)
  }

  lemma TakeClaimCounters(s: State, i: nat)
    requires CanTake(s, i)
    ensures var s' := Taken(s, i); Shape(s'.ring) && Ordered(s') && Residues(s') && |s'.claimed| == s'.producer.head
    ensures Taken(s, i).returned == Taken(s, i).claimed[..s.consumer.tail]
  {
    assert ThreadOk(s, i);
    SuccessorResidue(s.threads[i].g);
  }

  lemma TakeClaimOwners(s: State, i: nat)
    requires CanTake(s, i)
    ensures Tiled(Taken(s, i)) && Owned(Taken(s, i))
  {
    var s' := Taken(s, i);
    var mine := Claim(s.threads[i].op.Side(), s.threads[i].g);
    assert s'.owner == s.owner[mine := i];
    forall c: Claim | c in s'.owner ensures Holds(s', s'.owner[c], c) {
      if c != mine { assert Holds(s, s.owner[c], c); }
    }
  }

  lemma TakeClaimThread(s: State, i: nat, j: nat)
    requires CanTake(s, i) && j < |s.threads|
    ensures ThreadOk(Taken(s, i), j)
  {
    assert ThreadOk(s, i) && ThreadOk(s, j);
  }

  lemma TakeClaimSlot(s: State, i: nat, k: nat)
    requires CanTake(s, i) && s.consumer.tail <= k < Taken(s, i).producer.head
    ensures SlotOk(Taken(s, i), k)
  {
    var s' := Taken(s, i);
    if k < s.producer.head {
      assert SlotOk(s, k);
      if Stored(s', k) && k >= s.producer.tail {
        assert Holds(s, s.owner[Claim(Producer, k)], Claim(Producer, k));
        assert Stored(s, k);
      }
    }
  }

  lemma TakeClaimInv(s: State, i: nat)
    requires CanTake(s, i)
    ensures Inv(Taken(s, i))
  {
    var s' := Taken(s, i);
    TakeClaimCounters(s, i);
    TakeClaimOwners(s, i);
    forall j: nat | j < |s'.threads| ensures ThreadOk(s', j) { TakeClaimThread(s, i, j); }
    forall k: nat | s'.consumer.tail <= k < s'.producer.head ensures SlotOk(s', k) { TakeClaimSlot(s, i, k); }
  }

  /** Tickets from consumer.tail up to producer.head lie in pairwise different slots. */
  lemma SlotsDiffer(s: State, a: nat, b: nat)
    requires Inv(s) && a != b
    requires s.consumer.tail <= a < s.producer.head && s.consumer.tail <= b < s.producer.head
    ensures a % (s.ring.mask + 1) != b % (s.ring.mask + 1)
  {
    if a < b { ResiduesDiffer(a, b, s.ring.mask + 1); } else { ResiduesDiffer(b, a, s.ring.mask + 1); }
  }

  lemma StoreNodeInv(s: State, i: nat)
    requires Inv(s) && i < |s.threads| && s.threads[i].Slot? && s.threads[i].op.Enqueue?
    ensures Inv(StoreNode(s, i, s.threads[i].op.node, s.threads[i].h, s.threads[i].g))
  {
    var pc := s.threads[i];
    var g := pc.g;
    assert ThreadOk(s, i);
    var s' := StoreNode(s, i, pc.op.node, pc.h, g);
    SlotOfCounter(g, s.ring.mask + 1);
    forall j: nat | j < |s'.threads| ensures ThreadOk(s', j) {
      assert ThreadOk(s, j);
    }
    forall c: Claim | c in s'.owner ensures Holds(s', s'.owner[c], c) {
      assert Holds(s, s.owner[c], c);
    }
    forall k: nat | s'.consumer.tail <= k < s'.producer.head ensures SlotOk(s', k) {
      if k != g {
        SlotsDiffer(s, k, g);
        assert SlotOk(s, k);
        if Stored(s', k) && k >= s.producer.tail {
          assert Holds(s, s.owner[Claim(Producer, k)], Claim(Producer, k));
          assert Stored(s, k);
        }
      }
    }
  }

  /** A consumer finds the node of its ticket in its slot. */
  lemma FetchFinds(s: State, i: nat)
    requires Inv(s) && i < |s.threads| && s.threads[i].Slot? && s.threads[i].op.Dequeue?
    ensures s.threads[i].g < |s.claimed|
    ensures s.ring.nodes[And(s.threads[i].h, s.ring.mask)] == s.claimed[s.threads[i].g]
  {
    var g := s.threads[i].g;
    assert ThreadOk(s, i);
    SlotOfCounter(g, s.ring.mask + 1);
    assert Claim(Consumer, g) in s.owner;
    assert SlotOk(s, g);
  }

  ghost predicate CanPublish(s: State, i: nat)
  {
    Inv(s) && i < |s.threads| && s.threads[i].StoreTail?
  }

  function Published(s: State, i: nat): State
    requires i < |s.threads| && s.threads[i].StoreTail?
  {
    Publish(s, i, s.threads[i].op, s.threads[i].x, s.threads[i].t)
  }

  lemma PublishCounters(s: State, i: nat)
    requires CanPublish(s, i)
    ensures var s' := Published(s, i); Shape(s'.ring) && Ordered(s') && Residues(s')
    ensures |s.claimed| == s.producer.head
    ensures Published(s, i).returned == s.claimed[..Published(s, i).consumer.tail]
  {
    assert ThreadOk(s, i);
    assert Claim(s.threads[i].op.Side(), s.threads[i].g) in s.owner;
    SuccessorResidue(s.threads[i].g);
  }

  lemma PublishOwners(s: State, i: nat)
    requires CanPublish(s, i)
    ensures Tiled(Published(s, i)) && Owned(Published(s, i))
  {
    var s' := Published(s, i);
    assert ThreadOk(s, i);
    var mine := Claim(s.threads[i].op.Side(), s.threads[i].g);
    assert s'.owner == s.owner - {mine};
    forall c: Claim | c in s'.owner ensures Holds(s', s'.owner[c], c) {
      assert Holds(s, s.owner[c], c);
    }
  }

  lemma PublishThread(s: State, i: nat, j: nat)
    requires CanPublish(s, i) && j < |s.threads|
    ensures ThreadOk(Published(s, i), j)
  {
    assert ThreadOk(s, i) && ThreadOk(s, j);
  }

  lemma PublishSlot(s: State, i: nat, k: nat)
    requires CanPublish(s, i) && Published(s, i).consumer.tail <= k < s.producer.head
    ensures SlotOk(Published(s, i), k)
  {
    var s' := Published(s, i);
    assert ThreadOk(s, i) && SlotOk(s, k);
    if Stored(s', k) {
      assert Claim(Producer, k) in s.owner ==> Holds(s, s.owner[Claim(Producer, k)], Claim(Producer, k));
      assert Stored(s, k);
    }
  }

  lemma PublishInv(s: State, i: nat)
    requires CanPublish(s, i)
    ensures Inv(Published(s, i))
  {
    var s' := Published(s, i);
    PublishCounters(s, i);
    PublishOwners(s, i);
    forall j: nat | j < |s'.threads| ensures ThreadOk(s', j) { PublishThread(s, i, j); }
    forall k: nat | s'.consumer.tail <= k < s'.producer.head ensures SlotOk(s', k) { PublishSlot(s, i, k); }
  }

  lemma ReadHeadInv(s: State, i: nat)
    requires Inv(s) && Enabled(s, Run(i)) && s.threads[i].ReadHead?
    ensures Inv(Apply(s, Run(i)))
  {
    var op := s.threads[i].op;
    ThreadMove(s, i, ReadTail(op, s.ring.Of(op.Side()).head, s.Of(op.Side()).head));
  }

  lemma ReadTailInv(s: State, i: nat)
    requires Inv(s) && Enabled(s, Run(i)) && s.threads[i].ReadTail?
    ensures Inv(Apply(s, Run(i)))
  {
    var op, h, g := s.threads[i].op, s.threads[i].h, s.threads[i].g;
    assert ThreadOk(s, i);
    AvailableIs(s, op, h, g);
    if s.ring.Available(op.Side(), h) < 1 { ThreadMove(s, i, Idle); } else { ThreadMove(s, i, Swap(op, h, g)); }
  }

  lemma SwapInv(s: State, i: nat)
    requires Inv(s) && Enabled(s, Run(i)) && s.threads[i].Swap? && Awake(s, Run(i))
    ensures Inv(Apply(s, Run(i)))
  {
    var op, h, g := s.threads[i].op, s.threads[i].h, s.threads[i].g;
    assert ThreadOk(s, i);
    if s.ring.Of(op.Side()).head == h {
      SameResidue(g, s.Of(op.Side()).head);
      TakeClaimInv(s, i);
    } else {
      ThreadMove(s, i, ReadHead(op));
    }
  }

  lemma SlotInv(s: State, i: nat)
    requires Inv(s) && Enabled(s, Run(i)) && s.threads[i].Slot?
    ensures Inv(Apply(s, Run(i)))
  {
    var op, h, g := s.threads[i].op, s.threads[i].h, s.threads[i].g;
    assert ThreadOk(s, i);
    if op.Enqueue? {
      StoreNodeInv(s, i);
    } else {
      FetchFinds(s, i);
      ThreadMove(s, i, Wait(op, h, g, s.claimed[g]));
    }
  }

  lemma WaitInv(s: State, i: nat)
    requires Inv(s) && Enabled(s, Run(i)) && (s.threads[i].Wait? || s.threads[i].LoadTail?)
    ensures Inv(Apply(s, Run(i)))
  {
    assert ThreadOk(s, i);
    match s.threads[i] {
      case Wait(op, h, g, x) =>
        if s.ring.Of(op.Side()).tail == h {
          SameResidue(s.Of(op.Side()).tail, g);
          ThreadMove(s, i, LoadTail(op, h, g, x));
        }
      case LoadTail(op, h, g, x) => ThreadMove(s, i, StoreTail(op, h, g, x, s.ring.Of(op.Side()).tail));
    }
  }

  lemma StoreTailInv(s: State, i: nat)
    requires Inv(s) && Enabled(s, Run(i)) && s.threads[i].StoreTail?
    ensures Inv(Apply(s, Run(i)))
  {
    assert ThreadOk(s, i);
    PublishInv(s, i);
  }

  /** The invariant over one step of one thread. */
  lemma StepInv(s: State, m: Move)
    requires Inv(s) && Enabled(s, m) && Awake(s, m)
    ensures Inv(Apply(s, m))
  {
    hide Inv, Apply;
    match m
    case Start(i, op) => StartInv(s, i, op);
    case Run(i) => RunInv(s, i);
  }

  lemma StartInv(s: State, i: nat, op: Op)
    requires Inv(s) && Enabled(s, Start(i, op))
    ensures Inv(Apply(s, Start(i, op)))
  {
    ThreadMove(s, i, ReadHead(op));
  }

  lemma RunInv(s: State, i: nat)
    requires Inv(s) && Enabled(s, Run(i)) && Awake(s, Run(i))
    ensures Inv(Apply(s, Run(i)))
  {
    hide Inv, Apply;
    match s.threads[i] {
      case ReadHead(_) => ReadHeadInv(s, i);
      case ReadTail(_, _, _) => ReadTailInv(s, i);
      case Swap(_, _, _) => SwapInv(s, i);
      case Slot(_, _, _) => SlotInv(s, i);
      case Wait(_, _, _, _) => WaitInv(s, i);
      case LoadTail(_, _, _, _) => WaitInv(s, i);
      case StoreTail(_, _, _, _, _) => StoreTailInv(s, i);
    }
  }
}
