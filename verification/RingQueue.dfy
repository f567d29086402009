/** The queue block itself: its size, its initialisation, and the operations marked thread unsafe. */
module RingQueue {
  import opened Bits

  type Node = nat

  const NULL_NODE: Node := 0
  const OK: int := 0
  const QUEUE_INVAL: int := -10
  const QUEUE_FULL: int := -9
  const QUEUE_EMPTY: int := -8
  const QUEUE_SIZE_MAX: nat := 8192
  const CACHE_LINE_SIZE: nat := 64
  const HEADER_SIZE: nat := 192      // sizeof(LockFreeQueue): three cache lines
  const MAGIC: nat := 0xccddddcc

  /** QueueSizeCalc on a machine whose pointers take ptr bytes; None is QUEUE_INVAL. */
  datatype SizeResult = Invalid | Size(bytes: nat)

  function SizeCalc(unitNum: nat, ptr: nat): (r: SizeResult)
  {
    if unitNum > QUEUE_SIZE_MAX then Invalid
    else
      var size := Wrap32(ptr * unitNum + HEADER_SIZE);
      Size(And(Wrap32(size + CACHE_LINE_SIZE - 1), Wrap32(0 - CACHE_LINE_SIZE)))
  }

  /** Slots that lie wholly inside a block of the given size. */
  function SlotsIn(bytes: nat, ptr: nat): nat
    requires ptr > 0
  {
    if bytes < HEADER_SIZE then 0 else (bytes - HEADER_SIZE) / ptr
  }

  /** The block is cache aligned, nothing overflowed, and it is the smallest aligned block that holds every unit. */
  lemma SizeCalcIsTight(unitNum: nat, ptr: nat)
    requires unitNum <= QUEUE_SIZE_MAX && (ptr == 4 || ptr == 8)
    ensures var r := SizeCalc(unitNum, ptr);
      && r.Size? && r.bytes % CACHE_LINE_SIZE == 0
      && ptr * unitNum + HEADER_SIZE <= r.bytes < ptr * unitNum + HEADER_SIZE + CACHE_LINE_SIZE
      && unitNum <= SlotsIn(r.bytes, ptr)
  {
    if ptr == 4 { AlignedBlock(4 * unitNum); } else { AlignedBlock(8 * unitNum); }
  }

  lemma AlignedBlock(payload: nat)
    requires payload <= 8 * QUEUE_SIZE_MAX
    ensures var bytes := And(Wrap32(Wrap32(payload + HEADER_SIZE) + CACHE_LINE_SIZE - 1), Wrap32(0 - CACHE_LINE_SIZE));
      bytes % CACHE_LINE_SIZE == 0 && payload + HEADER_SIZE <= bytes < payload + HEADER_SIZE + CACHE_LINE_SIZE
  {
    var up := payload + HEADER_SIZE + CACHE_LINE_SIZE - 1;
    AlignDown64(up);
    assert Wrap32(0 - CACHE_LINE_SIZE) == U32 - 64;
  }

  lemma NoUnitsNoSlots(ptr: nat)
    requires ptr == 4 || ptr == 8
    ensures SlotsIn(SizeCalc(0, ptr).bytes, ptr) == 0
  {
    hide SizeCalc;
    SizeCalcIsTight(0, ptr);
  }

  /** Every slot any operation can name lies in the block exactly when there is at least one unit. */
  lemma BlockHoldsEverySlot(unitNum: nat, ptr: nat)
    requires unitNum <= QUEUE_SIZE_MAX && (ptr == 4 || ptr == 8) && PowerOfTwoTest(unitNum)
    ensures (forall h: nat :: And(h % U32, Wrap32(unitNum - 1)) < SlotsIn(SizeCalc(unitNum, ptr).bytes, ptr))
       <==> unitNum >= 1
  {
    hide SizeCalc, SlotsIn, And;
    SizeCalcIsTight(unitNum, ptr);
    var slots := SlotsIn(SizeCalc(unitNum, ptr).bytes, ptr);
    if unitNum >= 1 {
      assert Wrap32(unitNum - 1) == unitNum - 1;
    } else {
      NoUnitsNoSlots(ptr);
      assert And(0 % U32, Wrap32(unitNum - 1)) >= slots;
    }
  }

  /** The slot of an unbounded counter. */
  function SlotAt(h: nat, units: nat): (k: nat)
    requires units > 0
    ensures k < units
  {
    h % units
  }

  /** The nodes of the given number of consecutive tickets. */
  function Window(slots: seq<Node>, first: nat, count: nat, units: nat): (q: seq<Node>)
    requires 0 < units <= |slots|
    ensures |q| == count
  {
    seq(count, i requires 0 <= i < count => slots[SlotAt(first + i, units)])
  }

  lemma SlotsApart(a: nat, b: nat, units: nat)
    requires a < b < a + units
    ensures SlotAt(a, units) != SlotAt(b, units)
  {
    ResiduesDiffer(a, b, units);
  }

  lemma WindowGrows(slots: seq<Node>, first: nat, count: nat, units: nat, v: Node)
    requires 0 < units <= |slots| && count < units
    ensures Window(slots[SlotAt(first + count, units) := v], first, count + 1, units)
         == Window(slots, first, count, units) + [v]
  {
    var slots' := slots[SlotAt(first + count, units) := v];
    var q, q' := Window(slots, first, count, units), Window(slots', first, count + 1, units);
    forall i: nat | i < count ensures q'[i] == q[i] {
      SlotsApart(first + i, first + count, units);
      assert q'[i] == slots'[SlotAt(first + i, units)];
    }
  }

  lemma WindowShrinks(slots: seq<Node>, first: nat, count: nat, units: nat)
    requires 0 < units <= |slots| && count > 0
    ensures Window(slots, first, count, units)
         == [slots[SlotAt(first, units)]] + Window(slots, first + 1, count - 1, units)
  {
    var q := Window(slots, first + 1, count - 1, units);
    var w := Window(slots, first, count, units);
    forall i: nat | i < count - 1 ensures w[i + 1] == q[i] {
      assert first + (i + 1) == first + 1 + i;
    }
  }

  class LockFreeQueue {
    var magic: nat
    var unitNum: nat
    var producerSize: nat
    var producerMask: nat
    var producerHead: nat
    var producerTail: nat
    var consumerSize: nat
    var consumerMask: nat
    var consumerHead: nat
    var consumerTail: nat
    const nodes: array<Node>
    ghost var put: nat       // unbounded value of producerHead and producerTail
    ghost var taken: nat     // unbounded value of consumerHead and consumerTail

    /** A calloc'ed block with room for the given number of slots. */
    constructor (slots: nat)
      ensures fresh(nodes) && nodes.Length == slots
      ensures producerHead == producerTail == consumerHead == consumerTail == 0
    {
      magic, unitNum := 0, 0;
      producerSize, producerMask, producerHead, producerTail := 0, 0, 0, 0;
      consumerSize, consumerMask, consumerHead, consumerTail := 0, 0, 0, 0;
      nodes := new Node[slots](_ => NULL_NODE);
    }

    ghost predicate Valid()
      reads this
    {
      && 1 <= unitNum < U32 && IsPow2(unitNum) && unitNum <= nodes.Length
      && producerMask == consumerMask == unitNum - 1
      && taken <= put <= taken + producerMask
      && producerHead == producerTail == put % U32
      && consumerHead == consumerTail == taken % U32
    }

    /** The nodes waiting, oldest first. */
    ghost function Contents(): (q: seq<Node>)
      requires Valid()
      reads this, nodes
      ensures |q| == put - taken
    {
      Window(nodes[..], taken, put - taken, unitNum)
    }

    /** QueueInit. Zero passes the power-of-two test but leaves no usable queue. */
    method Init(units: nat) returns (code: int)
      requires units < U32
      modifies this
      ensures code == if units == 0 || IsPow2(units) then OK else QUEUE_INVAL
      ensures code == OK ==> magic == MAGIC && unitNum == units && producerSize == consumerSize == units
      ensures code == OK ==> producerMask == consumerMask == if units == 0 then U32 - 1 else units - 1
      ensures code == OK && 1 <= units <= nodes.Length ==> Valid() && Contents() == []
    {
      hide And, PowerOfTwoTest, IsPow2;
      PowerOfTwoTestExact(units);
      if !PowerOfTwoTest(units) {
        return QUEUE_INVAL;
      }
      magic := MAGIC;
      producerSize, consumerSize := units, units;
      producerMask, consumerMask := Wrap32(units - 1), Wrap32(units - 1);
      producerHead, consumerHead, producerTail, consumerTail := 0, 0, 0, 0;
      unitNum := units;
      put, taken := 0, 0;
      return OK;
    }

    /** QueueSingleProducerEnqueue: refuses exactly when mask nodes wait, otherwise appends. */
    method SingleProducerEnqueue(node: Node) returns (code: int)
      requires Valid()
      modifies this, nodes
      ensures Valid() && unitNum == old(unitNum)
      ensures code == if node == NULL_NODE then QUEUE_INVAL
                      else if |old(Contents())| == unitNum - 1 then QUEUE_FULL
                      else OK
      ensures Contents() == if code == OK then old(Contents()) + [node] else old(Contents())
    {
      if node == NULL_NODE {
        return QUEUE_INVAL;
      }
      var mask := producerMask;
      var head := producerHead;
      var tail := consumerTail;
      var availableCount := Wrap32(mask + tail - head);
      Room(put, taken, mask);
      if availableCount < 1 {
        return QUEUE_FULL;
      }
      var next := Wrap32(head + 1);
      producerHead := next;
      SlotOfCounter(put, unitNum);
      WindowGrows(nodes[..], taken, put - taken, unitNum, node);
      nodes[And(head, mask)] := node;
      producerTail := next;
      SuccessorResidue(put);
      put := put + 1;
      return OK;
    }

    /** QueueSingleConsumerDequeue: refuses exactly when nothing waits, otherwise takes the oldest. */
    method SingleConsumerDequeue() returns (code: int, node: Node)
      requires Valid()
      modifies this
      ensures Valid() && unitNum == old(unitNum)
      ensures code == if old(Contents()) == [] then QUEUE_EMPTY else OK
      ensures code == OK ==> old(Contents()) == [node] + Contents()
      ensures code != OK ==> Contents() == old(Contents())
    {
      var mask := producerMask;
      var head: int := consumerHead;
      var tail: int := producerTail;
      var availableCount := Wrap32(tail - head);
      TakeFacts(put, taken, unitNum);
      if availableCount < 1 {
        return QUEUE_EMPTY, NULL_NODE;
      }
      WindowShrinks(nodes[..], taken, put - taken, unitNum);
      var next := Wrap32(head + 1);
      consumerHead := next;
      node := nodes[And(head, mask)];
      consumerTail := next;
      taken := taken + 1;
      code := OK;
    }

    /** QueueCountGet. */
    method CountGet() returns (count: nat)
      requires Valid()
      ensures count == |Contents()|
    {
      Held(put, taken);
      MaskKeeps(put - taken, unitNum);
      count := And(Wrap32(producerTail - consumerTail), producerMask);
    }

    /** QueueIsEmpty: zero when nothing waits, -1 otherwise. */
    method IsEmpty() returns (code: int)
      requires Valid()
      ensures code == if Contents() == [] then 0 else -1
    {
      Held(put, taken);
      MaskKeeps(put - taken, unitNum);
      if And(Wrap32(producerTail - consumerTail), producerMask) == 0 {
        return 0;
      }
      return -1;
    }
  }

  /** CreateQueue, on a machine with 8-byte pointers. `allocates` is whether SoftBusCalloc succeeds. */
  method CreateQueue(unitNum: nat, allocates: bool) returns (queue: LockFreeQueue?)
    requires unitNum < U32
    ensures queue != null <==> (unitNum == 0 || IsPow2(unitNum)) && unitNum <= QUEUE_SIZE_MAX && allocates
    ensures queue != null ==> fresh(queue) && fresh(queue.nodes) && queue.unitNum == unitNum
    ensures queue != null && unitNum >= 1 ==> queue.Valid() && queue.Contents() == []
    ensures queue != null && unitNum == 0 ==> queue.producerMask == U32 - 1 && queue.nodes.Length == 0
  {
    PowerOfTwoTestExact(unitNum);
    if !PowerOfTwoTest(unitNum) {
      return null;
    }
    var queueSize := SizeCalc(unitNum, 8);
    if queueSize.Invalid? || !allocates {
      return null;
    }
    SizeCalcIsTight(unitNum, 8);
    NoUnitsNoSlots(8);
    queue := new LockFreeQueue(SlotsIn(queueSize.bytes, 8));
    var code := queue.Init(unitNum);
    if code != OK {
      return null;
    }
  }

  // ------------------------------------------------------ counter arithmetic

  lemma Room(put: nat, taken: nat, mask: nat)
    requires taken <= put <= taken + mask && mask < U32
    ensures Wrap32(mask + taken % U32 - put % U32) == taken + mask - put
  {
    DivMod(put, U32);
    DivMod(taken, U32);
    ModOfSum(put / U32 - taken / U32, U32, taken + mask - put);
    assert mask + taken % U32 - put % U32 == (put / U32 - taken / U32) * U32 + (taken + mask - put);
  }

  lemma Held(put: nat, taken: nat)
    requires taken <= put < taken + U32
    ensures Wrap32(put % U32 - taken % U32) == put - taken
  {
    DivMod(put, U32);
    DivMod(taken, U32);
    ModOfSum(taken / U32 - put / U32, U32, put - taken);
    assert put % U32 - taken % U32 == (taken / U32 - put / U32) * U32 + (put - taken);
  }

  lemma TakeFacts(put: nat, taken: nat, units: nat)
    requires taken <= put < taken + units && 1 <= units < U32 && IsPow2(units)
    ensures Wrap32(put % U32 - taken % U32) == put - taken
    ensures And(taken % U32, units - 1) == SlotAt(taken, units)
    ensures Wrap32(taken % U32 + 1) == (taken + 1) % U32
  {
    Held(put, taken);
    SlotOfCounter(taken, units);
    SuccessorResidue(taken);
  }

  lemma MaskKeeps(n: nat, units: nat)
    requires n < units < U32 && IsPow2(units)
    ensures And(n, units - 1) == n
  {
    SlotOfCounter(n, units);
    ModUnique(n, units, 0, n);
  }
}
