/**
 The circular doubly linked list that structures embed. A ring is described by the sequence of its
 nodes, its head first; every operation says which sequence the heap holds afterwards.
 */
module ListRing {

  /** A list node inside the structure it belongs to. */
  class ListNode<T> {
    var prev: ListNode?<T>
    var next: ListNode?<T>
    const owner: T

    /** A node in zeroed memory. */
    constructor (owner: T)
      ensures prev == null && next == null && this.owner == owner
    {
      prev, next := null, null;
      this.owner := owner;
    }
  }

  ghost predicate Distinct<T>(c: seq<ListNode<T>>)
  {
    forall i, j :: 0 <= i < j < |c| ==> c[i] != c[j]
  }

  ghost predicate Linked<T>(a: ListNode<T>, b: ListNode<T>)
    reads a, b
  {
    a.next == b && b.prev == a
  }

  /** The heap links these nodes, in this order, into a ring. */
  ghost predicate Ring<T>(c: seq<ListNode<T>>)
    reads c
  {
    && |c| >= 1 && Distinct(c) && Linked(c[|c| - 1], c[0])
    && forall i :: 0 < i < |c| ==> Linked(c[i - 1], c[i])
  }

  /** The ring with a node put in behind position k. */
  ghost function Inserted<T>(c: seq<ListNode<T>>, k: nat, node: ListNode<T>): seq<ListNode<T>>
    requires k < |c|
  {
    c[..k + 1] + [node] + c[k + 1..]
  }

  ghost function Removed<T>(c: seq<ListNode<T>>, k: nat): seq<ListNode<T>>
    requires k < |c|
  {
    c[..k] + c[k + 1..]
  }

  method ListInit<T>(list: ListNode<T>)
    modifies list
    ensures Ring([list])
  {
    list.next := list;
    list.prev := list;
  }

  method ListAdd<T>(list: ListNode<T>, node: ListNode<T>, ghost c: seq<ListNode<T>>, ghost k: nat)
    requires Ring(c) && k < |c| && c[k] == list && node !in c
    modifies c, node
    ensures Ring(Inserted(c, k, node))
  {
    ghost var after := if k + 1 < |c| then c[k + 1] else c[0];
    assert list.next == after by { if k + 1 < |c| { assert Linked(c[k + 1 - 1], c[k + 1]); } }
    node.next := list.next;
    node.prev := list;
    list.next.prev := node;
    list.next := node;
    ghost var d := Inserted(c, k, node);
    forall i | 0 < i < |d| ensures Linked(d[i - 1], d[i]) {
      if i <= k { assert d[i] == c[i] && d[i - 1] == c[i - 1]; }
      else if i > k + 2 { assert d[i] == c[i - 1] && d[i - 1] == c[i - 2]; }
    }
  }

  /** Behind the head: at the front of the list. */
  method ListNodeInsert<T>(list: ListNode<T>, node: ListNode<T>, ghost c: seq<ListNode<T>>)
    requires Ring(c) && c[0] == list && node !in c
    modifies c, node
    ensures Ring([list, node] + c[1..])
  {
    ListAdd(list, node, c, 0);
    assert Inserted(c, 0, node) == [list, node] + c[1..];
  }

  /**
   Before the node at position k: at the end of the list when that is the head, and in the middle when a
   sorted insertion found the node to go before.
   */
  method ListTailInsert<T>(item: ListNode<T>, node: ListNode<T>, ghost c: seq<ListNode<T>>, ghost k: nat)
    requires Ring(c) && k < |c| && c[k] == item && node !in c
    modifies c, node
    ensures Ring(if k == 0 then c + [node] else Inserted(c, k - 1, node))
  {
    if k > 0 { assert Linked(c[k - 1], c[k]); }
    ListAdd(item.prev, node, c, if k == 0 then |c| - 1 else k - 1);
    assert Inserted(c, |c| - 1, node) == c + [node];
  }

  /** Zeroed nodes, nodes alone in their own ring and nodes of a longer ring can all be deleted. */
  method ListDelete<T>(node: ListNode<T>, ghost c: seq<ListNode<T>>, ghost k: nat)
    requires node.next == null || node.prev == null || (Ring(c) && k < |c| && c[k] == node)
    modifies c, node
    ensures Ring([node])
    ensures old(node.next == null || node.prev == null) ==> forall x :: x in c && x != node ==> unchanged(x)
    ensures old(node.next != null && node.prev != null) && |c| > 1 ==> Ring(Removed(c, k))
  {
    if node.next != null && node.prev != null {
      ghost var after := if k + 1 < |c| then c[k + 1] else c[0];
      ghost var before := if k > 0 then c[k - 1] else c[|c| - 1];
      assert node.next == after by { if k + 1 < |c| { assert Linked(c[k + 1 - 1], c[k + 1]); } }
      assert node.prev == before by { if k > 0 { assert Linked(c[k - 1], c[k]); } }
      node.next.prev := node.prev;
      node.prev.next := node.next;
    }
    node.next := node;
    node.prev := node;
    if old(node.next != null && node.prev != null) && |c| > 1 {
      ghost var d := Removed(c, k);
      forall i | 0 < i < |d| ensures Linked(d[i - 1], d[i]) {
        if i < k { assert d[i] == c[i] && d[i - 1] == c[i - 1]; }
        else if i > k { assert d[i] == c[i + 1] && d[i - 1] == c[i]; assert Linked(c[i], c[i + 1]); }
      }
    }
  }

  /** Deleting a node of a list, given that it is in one. */
  method Unlink<T>(node: ListNode<T>, ghost c: seq<ListNode<T>>, ghost k: nat)
    requires Ring(c) && 1 <= k < |c| && c[k] == node
    modifies c
    ensures Ring(Removed(c, k)) && Ring([node])
  {
    assert Linked(c[k - 1], c[k]);
    assert Linked(c[k], At(c, k + 1)) by { if k + 1 < |c| { assert Linked(c[k + 1 - 1], c[k + 1]); } }
    ListDelete(node, c, k);
  }

  method IsListEmpty<T>(list: ListNode<T>, ghost c: seq<ListNode<T>>) returns (empty: bool)
    requires Ring(c) && c[0] == list
    ensures empty == (c == [list])
  {
    empty := list.next == list;
    if |c| > 1 { assert Linked(c[1 - 1], c[1]); }
  }

  // ------------------------------------------------------ iteration that may delete

  ghost function Kept<T>(c: seq<ListNode<T>>, drop: T -> bool): seq<ListNode<T>>
  {
    if c == [] then []
    else Kept(c[..|c| - 1], drop) + if drop(c[|c| - 1].owner) then [] else [c[|c| - 1]]
  }

  lemma {:induction false} KeptFrom<T>(c: seq<ListNode<T>>, drop: T -> bool, x: ListNode<T>)
    ensures x in Kept(c, drop) <==> x in c && !drop(x.owner)
  {
    if c != [] {
      KeptFrom(c[..|c| - 1], drop, x);
      assert c == c[..|c| - 1] + [c[|c| - 1]];
    }
  }

  ghost function At<T>(c: seq<ListNode<T>>, i: nat): ListNode<T>
    requires c != [] && i <= |c|
  {
    if i < |c| then c[i] else c[0]
  }

  method NextOf<T>(item: ListNode<T>, ghost c: seq<ListNode<T>>, ghost k: nat) returns (next: ListNode<T>)
    requires Ring(c) && k < |c| && c[k] == item
    ensures next == At(c, k + 1)
  {
    if k + 1 < |c| { assert Linked(c[k + 1 - 1], c[k + 1]); }
    next := item.next;
  }

  /** The ring once the nodes before position i have been visited. */
  ghost function Left<T>(c: seq<ListNode<T>>, drop: T -> bool, i: nat): seq<ListNode<T>>
    requires 1 <= i <= |c|
  {
    [c[0]] + Kept(c[1..i], drop) + c[i..]
  }

  lemma KeptStep<T>(c: seq<ListNode<T>>, drop: T -> bool, i: nat)
    requires 1 <= i < |c|
    ensures Kept(c[1..i + 1], drop) == Kept(c[1..i], drop) + if drop(c[i].owner) then [] else [c[i]]
  {
    assert c[1..i + 1][..i - 1] == c[1..i];
  }

  lemma LeftAt<T>(c: seq<ListNode<T>>, drop: T -> bool, i: nat, k: nat)
    requires 1 <= i < |c| && k == 1 + |Kept(c[1..i], drop)|
    ensures var d := Left(c, drop, i); k < |d| && d[k] == c[i] && At(d, k + 1) == At(c, i + 1)
  {
    hide Kept;
  }

  lemma LeftStep<T>(c: seq<ListNode<T>>, drop: T -> bool, i: nat, k: nat)
    requires 1 <= i < |c| && k == 1 + |Kept(c[1..i], drop)|
    ensures k < |Left(c, drop, i)|
    ensures Left(c, drop, i + 1) == if drop(c[i].owner) then Removed(Left(c, drop, i), k) else Left(c, drop, i)
  {
    hide Kept;
    KeptStep(c, drop, i);
    assert c[i..] == [c[i]] + c[i + 1..];
  }

  lemma LeftEnds<T>(c: seq<ListNode<T>>, drop: T -> bool)
    requires |c| >= 1
    ensures Left(c, drop, 1) == c && Left(c, drop, |c|) == [c[0]] + Kept(c[1..], drop)
  {
    assert c[1..1] == [] && c[1..|c|] == c[1..] && c == [c[0]] + c[1..];
  }

  ghost predicate DroppedAlone<T>(c: seq<ListNode<T>>, drop: T -> bool, i: nat)
    requires i <= |c|
    reads c
  {
    forall j :: 0 < j < i && drop(c[j].owner) ==> Ring([c[j]])
  }

  /** What was dropped so far is no part of the ring that is left. */
  lemma DroppedAreOut<T>(c: seq<ListNode<T>>, drop: T -> bool, i: nat)
    requires Distinct(c) && 1 <= i < |c|
    ensures forall j :: 0 < j < i && drop(c[j].owner) ==> c[j] !in Left(c, drop, i)
  {
    forall j | 0 < j < i && drop(c[j].owner) ensures c[j] !in Left(c, drop, i) {
      KeptFrom(c[1..i], drop, c[j]);
    }
  }

  lemma LeftIsPart<T>(c: seq<ListNode<T>>, drop: T -> bool, i: nat)
    requires 1 <= i <= |c|
    ensures var d := Left(c, drop, i); forall k :: 0 <= k < |d| ==> d[k] in c
  {
    var d := Left(c, drop, i);
    forall k | 0 <= k < |d| ensures d[k] in c {
      KeptFrom(c[1..i], drop, d[k]);
    }
  }

  lemma RingBasics<T>(c: seq<ListNode<T>>)
    requires Ring(c)
    ensures |c| >= 1 && Distinct(c)
  {
  }

  /** One round of the loop: the next node is fetched first, then the body may delete this one. */
  method FetchThenDelete<T>(item: ListNode<T>, delete: bool, ghost d: seq<ListNode<T>>, ghost k: nat)
    returns (nextItem: ListNode<T>)
    requires Ring(d) && 1 <= k < |d| && d[k] == item
    modifies d
    ensures nextItem == At(d, k + 1) && Ring(if delete then Removed(d, k) else d) && (delete ==> Ring([item]))
  {
    nextItem := NextOf(item, d, k);
    if delete { Unlink(item, d, k); }
  }

  method VisitOne<T>(item: ListNode<T>, drop: T -> bool, ghost c: seq<ListNode<T>>, ghost i: nat)
    returns (nextItem: ListNode<T>)
    requires 1 <= i < |c| && c[i] == item && Ring(Left(c, drop, i))
    modifies Left(c, drop, i)
    ensures nextItem == At(c, i + 1) && Ring(Left(c, drop, i + 1)) && (drop(item.owner) ==> Ring([item]))
  {
    hide Kept, Left, Ring, Removed;
    ghost var k := 1 + |Kept(c[1..i], drop)|;
    LeftAt(c, drop, i, k);
    LeftStep(c, drop, i, k);
    nextItem := FetchThenDelete(item, drop(item.owner), Left(c, drop, i), k);
  }

  /**
   The loop that fetches the next node before its body, with a body that deletes some of the nodes:
   every node of the original list is visited once and in order, and the others stay linked in order.
   */
  method ForEachSafe<T>(list: ListNode<T>, drop: T -> bool, ghost c: seq<ListNode<T>>)
    returns (visited: seq<ListNode<T>>)
    requires Ring(c) && c[0] == list
    modifies c
    ensures visited == c[1..]
    ensures Ring([list] + Kept(c[1..], drop))
    ensures DroppedAlone(c, drop, |c|)
  {
    hide Kept, Left, Ring, Removed;
    RingBasics(c);
    LeftEnds(c, drop);
    ghost var i := 1;
    var item := NextOf(list, c, 0);
    visited := [];
    while item != list
      invariant 1 <= i <= |c| && item == At(c, i) && visited == c[1..i]
      invariant Ring(Left(c, drop, i)) && DroppedAlone(c, drop, i)
      decreases |c| - i
    {
      LeftIsPart(c, drop, i);
      DroppedAreOut(c, drop, i);
      visited := visited + [item];
      item := VisitOne(item, drop, c, i);
      i := i + 1;
    }
  }
}
