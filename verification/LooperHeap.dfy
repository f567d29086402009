/**
 The looper's message list on the heap: a ring of nodes, each in a structure that points to its
 message. Every operation is proved to do to the list what module LooperSpec says.
 */
module LooperHeap {
  import opened Options
  import opened Bits
  import opened ListRing
  import opened LooperSpec
  import opened LooperTheorems

  /** What a list node sits in: the looper context, or a message node. */
  datatype Owner = Context | Node(msg: Message)

  type MsgNode = ListNode<Owner>

  /** The messages of the nodes behind the head. */
  ghost function MessagesOf(c: seq<MsgNode>): (ms: seq<Message>)
    requires forall i :: 0 <= i < |c| ==> c[i].owner.Node?
    ensures |ms| == |c| && forall i :: 0 <= i < |c| ==> ms[i] == c[i].owner.msg
  {
    seq(|c|, i requires 0 <= i < |c| => c[i].owner.msg)
  }

  ghost predicate AllNodes(c: seq<MsgNode>)
  {
    forall i :: 0 < i < |c| ==> c[i].owner.Node?
  }

  /** A node put in before position k puts its message in before that position of the messages. */
  lemma InsertedMessages(c: seq<MsgNode>, k: nat, node: MsgNode)
    requires 1 <= k <= |c| && AllNodes(c) && node.owner.Node?
    ensures var d := Inserted(c, k - 1, node);
      && d[0] == c[0] && AllNodes(d)
      && MessagesOf(d[1..]) == MessagesOf(c[1..])[..k - 1] + [node.owner.msg] + MessagesOf(c[1..])[k - 1..]
  {
  }

  lemma RemovedMessages(c: seq<MsgNode>)
    requires |c| > 1 && AllNodes(c)
    ensures var d := ListRing.Removed(c, 1);
      |d| >= 1 && d[0] == c[0] && AllNodes(d) && MessagesOf(d[1..]) == MessagesOf(c[1..])[1..]
  {
  }

  method LinkBefore(item: MsgNode, node: MsgNode, ghost c: seq<MsgNode>, ghost k: nat)
    requires Ring(c) && 1 <= k <= |c| && item == At(c, k) && node !in c
    modifies c, node
    ensures Ring(Inserted(c, k - 1, node))
  {
    ListTailInsert(item, node, c, if k < |c| then k else 0);
    if k == |c| { assert Inserted(c, k - 1, node) == c + [node]; }
  }

  ghost predicate Shape(c: seq<MsgNode>, head: MsgNode)
    reads c
  {
    Ring(c) && c[0] == head && AllNodes(c)
  }

  /** Taking a due message, as the step system has it. */
  lemma TakeIs(x: Looper, now: int)
    requires x.running && x.current.None?
    ensures Enabled(x, Take(now)) <==> !x.stop && x.list != [] && now >= x.list[0].time
    ensures Enabled(x, Take(now)) ==>
      var y := Next(x, Take(now));
      y.list == x.list[1..] && y.msgSize == Wrap32(x.msgSize as int - 1) && y.stop == x.stop && y.running == x.running
  {
  }

  class LooperContext {
    const msgHead: MsgNode
    var stop: bool
    var running: bool
    var msgSize: nat
    var freed: seq<Message>          // messages passed to FreeSoftBusMsg, in order
    ghost var ring: seq<MsgNode>
    ghost var model: Looper          // where the step system of module LooperSpec is

    /** The ring is well formed and the object stands for the state of its model. */
    ghost predicate Valid()
      reads this, ring
    {
      && Shape(ring, msgHead) && model.list == Contents()
      && model.stop == stop && model.running == running && model.msgSize == msgSize
    }

    ghost function Contents(): seq<Message>
      requires Shape(ring, msgHead)
      reads this, ring
    {
      MessagesOf(ring[1..])
    }

    constructor ()
      ensures Valid() && model == LooperSpec.Start() && freed == [] && fresh(ring)
    {
      var head := new ListNode(Context);
      msgHead := head;
      stop, running, msgSize, freed, ring, model := false, false, 0, [], [head], LooperSpec.Start();
      new;
      ListInit(msgHead);
    }

    /** The scan of PostMessageAtTime: the first node due strictly later, or the head. */
    method FindLater(time: int) returns (item: MsgNode, ghost k: nat)
      requires Shape(ring, msgHead)
      ensures 1 <= k <= |ring| && item == At(ring, k)
      ensures forall i :: 0 < i < k ==> ring[i].owner.msg.time <= time
      ensures k < |ring| ==> ring[k].owner.msg.time > time
    {
      k := 1;
      item := NextOf(msgHead, ring, 0);
      while item != msgHead
        invariant 1 <= k <= |ring| && item == At(ring, k)
        invariant forall i :: 0 < i < k ==> ring[i].owner.msg.time <= time
        decreases |ring| - k
      {
        assert k < |ring|;
        if item.owner.msg.time > time { return; }
        item := NextOf(item, ring, k);
        k := k + 1;
      }
    }

    /** The insertion of PostMessageAtTime: a new node goes in before the first one due strictly later. */
    method InsertNode(m: Message)
      requires Shape(ring, msgHead)
      modifies `ring, ring
      ensures Shape(ring, msgHead) && Contents() == Insert(old(Contents()), m)
    {
      hide Ring, Insert, Inserted, MessagesOf, AllNodes;
      var newNode := new ListNode(Node(m));
      ListInit(newNode);
      ghost var c := ring;
      RingBasics(c);
      var item, k := FindLater(m.time);
      InsertSplits(Contents(), m, k - 1);
      InsertedMessages(c, k, newNode);
      LinkBefore(item, newNode, ring, k);
      ring := Inserted(c, k - 1, newNode);
    }

    /** PostMessageAtTime; `ok` says that the parameters, the allocation and the lock are all right. */
    method PostMessageAtTime(m: Message, ok: bool) returns (accepted: bool)
      requires Valid() && m.number == |model.accepted|
      modifies this, ring
      ensures model == Next(old(model), Post(m.time, m.handler, m.what, ok))
      ensures Valid() && accepted == (ok && !old(stop)) && stop == old(stop) && running == old(running)
      ensures Contents() == if accepted then Insert(old(Contents()), m) else old(Contents())
      ensures msgSize == if accepted then Wrap32(old(msgSize) + 1) else old(msgSize)
      ensures freed == old(freed) + if accepted then [] else [m]
    {
      hide Ring, Insert, MessagesOf, AllNodes;
      if !ok || stop {
        freed := freed + [m];
        return false;
      }
      InsertNode(m);
      msgSize := Wrap32(msgSize + 1);
      model := Next(model, Post(m.time, m.handler, m.what, ok));
      return true;
    }

    /** The first message, if there is one that is due, with its node taken out. */
    method UnlinkDue(now: int) returns (msg: Option<Message>)
      requires Shape(ring, msgHead)
      modifies `ring, ring
      ensures Shape(ring, msgHead)
      ensures var ms := old(Contents());
        && msg == (if ms != [] && now >= ms[0].time then Some(ms[0]) else None)
        && Contents() == if msg.Some? then ms[1..] else ms
    {
      hide Ring, MessagesOf, ListRing.Removed;
      ghost var c := ring;
      RingBasics(c);
      var empty := IsListEmpty(msgHead, c);
      if empty { return None; }
      var item := NextOf(msgHead, c, 0);
      if now < item.owner.msg.time { return None; }
      msg := Some(item.owner.msg);
      RemovedMessages(c);
      Unlink(item, c, 1);
      ring := ListRing.Removed(c, 1);
    }

    /** The part of LoopTask that picks a message under the lock; nothing is picked before it is due. */
    method TakeDue(now: int) returns (msg: Option<Message>)
      requires Valid() && running && model.current.None?
      modifies this, ring
      ensures msg.Some? <==> Enabled(old(model), Take(now))
      ensures model == if msg.Some? then Next(old(model), Take(now)) else old(model)
      ensures Valid() && freed == old(freed) && stop == old(stop) && running == old(running)
      ensures msg == if !old(stop) && old(Contents()) != [] && now >= old(Contents())[0].time
                     then Some(old(Contents())[0]) else None
      ensures Contents() == if msg.Some? then old(Contents())[1..] else old(Contents())
      ensures msgSize == if msg.Some? then Wrap32(old(msgSize) as int - 1) else old(msgSize)
    {
      hide Ring, MessagesOf, Next, Enabled;
      TakeIs(model, now);
      if stop { return None; }
      msg := UnlinkDue(now);
      if msg.None? { return; }
      var size: int := msgSize;
      msgSize := Wrap32(size - 1);
      model := Next(model, Take(now));
    }

    /**
     The deleting loop of LoopRemoveMessageCustom and of the drain in DestroyLooper: each message the test
     picks is freed, in list order.
     */
    method FreeEach(drop: Message -> bool) returns (n: nat)
      requires Valid()
      modifies this, ring
      ensures Shape(ring, msgHead) && model == old(model)
      ensures stop == old(stop) && running == old(running) && msgSize == old(msgSize)
      ensures Contents() == Keep(old(Contents()), drop) && freed == old(freed) + Gone(old(Contents()), drop)
      ensures n == |Gone(old(Contents()), drop)|
    {
      hide Ring, MessagesOf, Kept, Left, ListRing.Removed, Keep, Gone;
      ghost var c, ms := ring, Contents();
      RingBasics(c);
      var test := (o: Owner) => o.Node? && drop(o.msg);
      LeftEnds(c, test);
      GoneNone(drop);
      ghost var i := 1;
      n := 0;
      var item := NextOf(msgHead, c, 0);
      while item != msgHead
        invariant 1 <= i <= |c| && item == At(c, i) && Ring(Left(c, test, i)) && ring == c
        invariant freed == old(freed) + Gone(ms[..i - 1], drop) && n == |Gone(ms[..i - 1], drop)|
        invariant stop == old(stop) && running == old(running) && msgSize == old(msgSize) && model == old(model)
        decreases |c| - i
      {
        LeftIsPart(c, test, i);
        GoneStep(ms, drop, i - 1);
        if drop(item.owner.msg) { freed, n := freed + [item.owner.msg], n + 1; }
        item := VisitOne(item, test, c, i);
        i := i + 1;
      }
      assert ms[..|c| - 1] == ms;
      KeptRing(c, drop, test);
      ring := [msgHead] + Kept(c[1..], test);
    }

    /** LoopRemoveMessageCustom: does nothing unless the loop thread runs and nobody destroys the looper. */
    method RemoveMessages(drop: Message -> bool)
      requires Valid()
      modifies this, ring
      ensures model == Next(old(model), Remove(drop))
      ensures Valid() && stop == old(stop) && running == old(running)
      ensures var acts := old(running) && !old(stop); var gone := Gone(old(Contents()), drop);
        && Contents() == (if acts then Keep(old(Contents()), drop) else old(Contents()))
        && freed == old(freed) + (if acts then gone else [])
        && msgSize == if acts then Wrap32(old(msgSize) as int - |gone|) else old(msgSize)
    {
      if !running || stop { return; }
      var n := FreeEach(drop);
      var size: int := msgSize;
      msgSize := Wrap32(size - n);
      model := Next(model, Remove(drop));
    }

    /** The drain of DestroyLooper: everything left is freed in order; msgSize is not kept up. */
    method Drain()
      requires Valid() && Enabled(model, LooperSpec.Drain)
      modifies this, ring
      ensures Valid() && model == Next(old(model), LooperSpec.Drain)
      ensures Contents() == [] && freed == old(freed) + old(Contents())
    {
      DropAll(Contents());
      var _ := FreeEach(AnyMessage);
      model := Next(model, LooperSpec.Drain);
    }

    /** LoopTask comes to its loop. */
    method EnterLoop()
      requires Valid() && Enabled(model, Run)
      modifies this
      ensures Valid() && model == Next(old(model), Run) && running && ring == old(ring) && freed == old(freed)
    {
      running := true;
      model := Next(model, Run);
    }

    /** The message that was handled is freed and is no longer the current one. */
    method FreeHandled(msg: Message)
      requires Valid() && model.current.Some? && model.current.value.m == msg
      modifies this
      ensures Valid() && model == Next(old(model), Finish) && ring == old(ring) && freed == old(freed) + [msg]
    {
      freed := freed + [msg];
      model := Next(model, Finish);
    }

    /** LoopTask leaves its loop. */
    method LeaveLoop()
      requires Valid() && Enabled(model, Exit)
      modifies this
      ensures Valid() && model == Next(old(model), Exit) && !running && ring == old(ring) && freed == old(freed)
    {
      running := false;
      model := Next(model, Exit);
    }

    /** DestroyLooper asks the thread to stop. */
    method Stop()
      requires Valid()
      modifies this
      ensures Valid() && model == Next(old(model), Destroy) && stop && ring == old(ring) && freed == old(freed)
    {
      stop := true;
      model := Next(model, Destroy);
    }
  }

  predicate AnyMessage(m: Message)
  {
    true
  }

  lemma {:induction false} DropAll(ms: seq<Message>)
    ensures Keep(ms, AnyMessage) == [] && Gone(ms, AnyMessage) == ms
  {
    if ms != [] { DropAll(ms[..|ms| - 1]); }
  }

  lemma GoneNone(drop: Message -> bool)
    ensures Gone([], drop) == []
  {
  }

  lemma GoneStep(ms: seq<Message>, drop: Message -> bool, i: nat)
    requires i < |ms|
    ensures Gone(ms[..i + 1], drop) == Gone(ms[..i], drop) + if drop(ms[i]) then [ms[i]] else []
  {
    assert ms[..i + 1][..i] == ms[..i];
  }

  lemma KeepLast(ms: seq<Message>, drop: Message -> bool)
    requires ms != []
    ensures var n := |ms| - 1; Keep(ms, drop) == Keep(ms[..n], drop) + if drop(ms[n]) then [] else [ms[n]]
  {
  }

  /** What is left of a ring when nodes go by their owners. */
  lemma KeptRing(c: seq<MsgNode>, drop: Message -> bool, test: Owner -> bool)
    requires c != [] && AllNodes(c) && forall m :: test(Node(m)) == drop(m)
    ensures var d := [c[0]] + Kept(c[1..], test);
      AllNodes(d) && MessagesOf(d[1..]) == Keep(MessagesOf(c[1..]), drop)
  {
    hide MessagesOf, Kept, Keep;
    KeptMessages(c[1..], drop, test);
    assert ([c[0]] + Kept(c[1..], test))[1..] == Kept(c[1..], test);
  }

  ghost predicate Carry(c: seq<MsgNode>)
  {
    forall i :: 0 <= i < |c| ==> c[i].owner.Node?
  }

  lemma MessagesAdd(c: seq<MsgNode>, x: MsgNode)
    requires Carry(c) && x.owner.Node?
    ensures Carry(c + [x]) && MessagesOf(c + [x]) == MessagesOf(c) + [x.owner.msg]
  {
  }

  lemma KeptLast(c: seq<MsgNode>, test: Owner -> bool)
    requires c != []
    ensures var n := |c| - 1; Kept(c, test) == Kept(c[..n], test) + if test(c[n].owner) then [] else [c[n]]
  {
  }

  /** Keeping nodes by their owners is keeping messages. */
  lemma {:induction false} KeptMessages(c: seq<MsgNode>, drop: Message -> bool, test: Owner -> bool)
    requires Carry(c) && forall m :: test(Node(m)) == drop(m)
    ensures var kept := Kept(c, test); Carry(kept) && MessagesOf(kept) == Keep(MessagesOf(c), drop)
  {
    if c == [] {
      assert MessagesOf(c) == [];
    } else {
      hide MessagesOf, Kept, Keep;
      var n := |c| - 1;
      var front, x := c[..n], c[n];
      assert c == front + [x];
      KeptMessages(front, drop, test);
      KeptLast(c, test);
      MessagesAdd(front, x);
      KeepLast(MessagesOf(c), drop);
      assert test(Node(x.owner.msg)) == drop(x.owner.msg);
      if !test(x.owner) { MessagesAdd(Kept(front, test), x); }
    }
  }
}
