/**
 The multi-producer multi-consumer ring as a step system. Any number of threads run
 QueueMultiProducerEnqueue and QueueMultiConsumerDequeue; every shared read, compare-and-swap,
 slot access and tail update is a step of its own. The `tail += 1` at the end of each operation
 is not atomic, so its read and its write are two steps.

 Beside the uint32 fields the state keeps their unbounded values, the nodes in claim order and
 the owner of every claim in flight. No step reads these: they only record.
 */
module RingSteps {
  import opened Bits

  type Node = nat

  datatype Side = Producer | Consumer

  datatype Op = Enqueue(node: Node) | Dequeue
  {
    function Side(): Side { if Enqueue? then Producer else Consumer }
  }

  datatype Counters = Counters(head: nat, tail: nat)

  /** The uint32 fields and the slots of LockFreeQueue. */
  datatype Ring = Ring(mask: nat, producer: Counters, consumer: Counters, nodes: seq<Node>)
  {
    function Of(side: Side): Counters { if side.Producer? then producer else consumer }

    function With(side: Side, c: Counters): Ring
    {
      if side.Producer? then this.(producer := c) else this.(consumer := c)
    }

    /** availableCount, once the opposite tail has been read. */
    function Available(side: Side, h: nat): nat
    {
      if side.Producer? then Wrap32(mask + consumer.tail - h) else Wrap32(producer.tail - h)
    }
  }

  /** The place a thread is at. `h` is the local copy of the head, `g` the unbounded value behind it. */
  datatype Pc =
    | Idle
    | ReadHead(op: Op)
    | ReadTail(op: Op, h: nat, g: nat)
    | Swap(op: Op, h: nat, g: nat)
    | Slot(op: Op, h: nat, g: nat)
    | Wait(op: Op, h: nat, g: nat, x: Node)
    | LoadTail(op: Op, h: nat, g: nat, x: Node)
    | StoreTail(op: Op, h: nat, g: nat, x: Node, t: nat)
  {
    predicate InFlight() { Slot? || Wait? || LoadTail? || StoreTail? }
  }

  datatype Claim = Claim(side: Side, ticket: nat)

  datatype State = State(
    ring: Ring,
    threads: seq<Pc>,
    producer: Counters,        // unbounded values of ring.producer
    consumer: Counters,        // unbounded values of ring.consumer
    owner: map<Claim, nat>,    // thread that holds each claim in flight
    claimed: seq<Node>,        // node of every producer claim, in claim order
    returned: seq<Node>)       // node of every finished dequeue, in the order the tails moved
  {
    function Of(side: Side): Counters { if side.Producer? then producer else consumer }

    function With(side: Side, c: Counters): State
    {
      if side.Producer? then this.(producer := c) else this.(consumer := c)
    }

    /** The unbounded value the head of a side may not pass. */
    function Limit(side: Side): nat
    {
      if side.Producer? then consumer.tail + ring.mask else producer.tail
    }
  }

  datatype Move = Start(i: nat, op: Op) | Run(i: nat)

  predicate Enabled(s: State, m: Move)
  {
    m.i < |s.threads| &&
    match m
    case Start(i, op) => s.threads[i].Idle?
    case Run(i) => !s.threads[i].Idle?
  }

  /** What a thread does next, given the shared state. Only `ring` and the thread's own `h`, `x`, `t` are read. */
  function Apply(s: State, m: Move): State
    requires Enabled(s, m)
    requires |s.ring.nodes| > s.ring.mask
  {
    var i := m.i;
    match m
    case Start(_, op) => s.(threads := s.threads[i := ReadHead(op)])
    case Run(_) =>
      match s.threads[i]
      case Idle => s
      case ReadHead(op) =>
        var side := op.Side();
        s.(threads := s.threads[i := ReadTail(op, s.ring.Of(side).head, s.Of(side).head)])
      case ReadTail(op, h, g) =>
        if s.ring.Available(op.Side(), h) < 1
        then s.(threads := s.threads[i := Idle])   // QUEUE_FULL or QUEUE_EMPTY
        else s.(threads := s.threads[i := Swap(op, h, g)])
      case Swap(op, h, g) =>
        if s.ring.Of(op.Side()).head == h
        then TakeClaim(s, i, op, h)
        else s.(threads := s.threads[i := ReadHead(op)])
      case Slot(op, h, g) =>
        (match op
         case Enqueue(v) => StoreNode(s, i, v, h, g)
         case Dequeue => FetchNode(s, i, h, g))
      case Wait(op, h, g, x) =>
        if s.ring.Of(op.Side()).tail != h
        then s                                     // spin
        else s.(threads := s.threads[i := LoadTail(op, h, g, x)])
      case LoadTail(op, h, g, x) =>
        s.(threads := s.threads[i := StoreTail(op, h, g, x, s.ring.Of(op.Side()).tail)])
      case StoreTail(op, h, g, x, t) => Publish(s, i, op, x, t)
  }

  /** A successful compare-and-swap: the head moves and the thread holds the ticket it passed. */
  function TakeClaim(s: State, i: nat, op: Op, h: nat): State
    requires i < |s.threads|
  {
    var side := op.Side();
    var c := s.Of(side);
    s.With(side, c.(head := c.head + 1)).(
      ring := s.ring.With(side, s.ring.Of(side).(head := Wrap32(h + 1))),
      threads := s.threads[i := Slot(op, h, c.head)],
      owner := s.owner[Claim(side, c.head) := i],
      claimed := if op.Enqueue? then s.claimed + [op.node] else s.claimed)
  }

  function StoreNode(s: State, i: nat, v: Node, h: nat, g: nat): State
    requires i < |s.threads| && |s.ring.nodes| > s.ring.mask
  {
    s.(ring := s.ring.(nodes := s.ring.nodes[And(h, s.ring.mask) := v]),
       threads := s.threads[i := Wait(Enqueue(v), h, g, v)])
  }

  function FetchNode(s: State, i: nat, h: nat, g: nat): State
    requires i < |s.threads| && |s.ring.nodes| > s.ring.mask
  {
    s.(threads := s.threads[i := Wait(Dequeue, h, g, s.ring.nodes[And(h, s.ring.mask)])])
  }

  /** The write half of `tail += 1`, after which the operation returns 0. */
  function Publish(s: State, i: nat, op: Op, x: Node, t: nat): State
    requires i < |s.threads|
  {
    var side := op.Side();
    var c := s.Of(side);
    s.With(side, c.(tail := c.tail + 1)).(
      ring := s.ring.With(side, s.ring.Of(side).(tail := Wrap32(t + 1))),
      threads := s.threads[i := Idle],
      owner := s.owner - {Claim(side, c.tail)},
      returned := if op.Dequeue? then s.returned + [x] else s.returned)
  }

  /**
   The one assumption on scheduling: a thread about to compare-and-swap read the head fewer than
   2^32 claims ago. A uint32 compare cannot tell the two values apart otherwise (SwapIsExact).
   */
  predicate Awake(s: State, m: Move)
    requires Enabled(s, m)
  {
    m.Run? && s.threads[m.i].Swap? ==>
      s.Of(s.threads[m.i].op.Side()).head - s.threads[m.i].g < U32
  }

  // ---------------------------------------------------------------- invariant

  /** unitNum is a power of two that fits in 32 bits, and there is a slot for each unit. */
  ghost predicate Shape(r: Ring)
  {
    r.mask + 1 < U32 && IsPow2(r.mask + 1) && |r.nodes| == r.mask + 1
  }

  /** consumer.tail <= consumer.head <= producer.tail <= producer.head <= consumer.tail + mask */
  predicate Ordered(s: State)
  {
    s.consumer.tail <= s.consumer.head <= s.producer.tail <= s.producer.head <= s.consumer.tail + s.ring.mask
  }

  predicate ResidueOf(r: Counters, g: Counters)
  {
    r.head == g.head % U32 && r.tail == g.tail % U32
  }

  predicate Residues(s: State)
  {
    ResidueOf(s.ring.producer, s.producer) && ResidueOf(s.ring.consumer, s.consumer)
  }

  /** Claims in flight are exactly the tickets between tail and head, on each side. */
  ghost predicate Tiled(s: State)
  {
    forall c: Claim :: c in s.owner <==> s.Of(c.side).tail <= c.ticket < s.Of(c.side).head
  }

  /** Each claim in flight is held by the thread the record names. */
  ghost predicate Owned(s: State)
  {
    forall c: Claim :: c in s.owner ==> Holds(s, s.owner[c], c)
  }

  predicate Holds(s: State, i: nat, c: Claim)
  {
    i < |s.threads| && s.threads[i].InFlight() && c == Claim(s.threads[i].op.Side(), s.threads[i].g)
  }

  predicate ThreadOk(s: State, i: nat)
    requires i < |s.threads|
  {
    match s.threads[i]
    case Idle => true
    case ReadHead(_) => true
    case ReadTail(op, h, g) => h == g % U32 && g <= s.Of(op.Side()).head
    case Swap(op, h, g) => h == g % U32 && g <= s.Of(op.Side()).head && g < s.Limit(op.Side())
    case Slot(op, h, g) => ClaimOk(s, i, op, h, g)
    case Wait(op, h, g, x) => ClaimOk(s, i, op, h, g) && x == s.claimed[g]
    case LoadTail(op, h, g, x) => ClaimOk(s, i, op, h, g) && x == s.claimed[g] && g == s.Of(op.Side()).tail
    case StoreTail(op, h, g, x, t) =>
      ClaimOk(s, i, op, h, g) && x == s.claimed[g] && g == s.Of(op.Side()).tail && t == h
  }

  predicate ClaimOk(s: State, i: nat, op: Op, h: nat, g: nat)
  {
    && h == g % U32
    && Claim(op.Side(), g) in s.owner && s.owner[Claim(op.Side(), g)] == i
    && g < |s.claimed|
    && (op.Enqueue? ==> op.node == s.claimed[g])
  }

  /** The node of ticket k has reached its slot: published, or its producer is past the store. */
  predicate Stored(s: State, k: nat)
  {
    k < s.producer.tail ||
    (Claim(Producer, k) in s.owner && s.owner[Claim(Producer, k)] < |s.threads| &&
     !s.threads[s.owner[Claim(Producer, k)]].Slot?)
  }

  predicate SlotOk(s: State, k: nat)
    requires |s.ring.nodes| == s.ring.mask + 1
  {
    Stored(s, k) ==> k < |s.claimed| && s.ring.nodes[k % (s.ring.mask + 1)] == s.claimed[k]
  }

  ghost predicate SlotsOk(s: State)
    requires |s.ring.nodes| == s.ring.mask + 1
  {
    forall k: nat :: s.consumer.tail <= k < s.producer.head ==> SlotOk(s, k)
  }

  ghost predicate ThreadsOk(s: State)
  {
    forall i: nat :: i < |s.threads| ==> ThreadOk(s, i)
  }

  ghost predicate Inv(s: State)
  {
    && Shape(s.ring)
    && Ordered(s)
    && Residues(s)
    && |s.claimed| == s.producer.head
    && s.returned == s.claimed[..s.consumer.tail]
    && Tiled(s) && Owned(s)
    && ThreadsOk(s)
    && SlotsOk(s)
  }

  /** The queue as QueueInit leaves it, before any thread has called in. */
  ghost predicate Init(s: State)
  {
    && Shape(s.ring)
    && s.ring.producer == Counters(0, 0) && s.ring.consumer == Counters(0, 0)
    && s.producer == Counters(0, 0) && s.consumer == Counters(0, 0)
    && s.owner == map[] && s.claimed == [] && s.returned == []
    && forall i: nat :: i < |s.threads| ==> s.threads[i].Idle?
  }

  lemma InitInv(s: State)
    requires Init(s)
    ensures Inv(s)
  {
  }
}
