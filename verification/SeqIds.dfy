/** Sequence numbers that carry the sender's direction, and request ids. */
module SeqIds {
  import opened Options
  import opened Framing

  const SEQ_INTERVAL: int := 2
  const SEQ_INTEGER_MAX: int := 0xFF_FFFF
  const TWO24: int := 0x100_0000
  const TWO40: int := 0x100_0000_0000
  const EPOCH: int := 0x80_0000       // calls between two updates of the unique id
  const REQID_MAX: int := 1_000_000

  // ------------------------------------------------------ GenSeq

  datatype Gen = Gen(integer: int, uniqueId: int)

  /** What a call brings along: its side, and the unique id if one is computed now. */
  datatype Call = Call(isServer: bool, uid: Option<nat>)

  /** UpdateUniqueId shifts in 32 bits of hash and 8 bits of time; it may fail and change nothing. */
  function Update(uniqueId: int, uid: Option<nat>): int
  {
    match uid case None => uniqueId case Some(bits) => (uniqueId * TWO40 + bits % TWO40) % TWO64
  }

  function Advance(g: Gen, c: Call): Gen
  {
    var integer := if g.integer >= SEQ_INTEGER_MAX then 0 else g.integer;
    Gen(integer + SEQ_INTERVAL, if integer == 0 then Update(g.uniqueId, c.uid) else g.uniqueId)
  }

  /** The 64-bit pattern of the number a call returns, from the state it leaves. */
  function Pattern(g: Gen, isServer: bool): (u: int)
    requires g.integer >= 0
    ensures 0 <= u < TWO64
  {
    g.uniqueId % TWO40 * TWO24 + (g.integer + if isServer then 1 else 0) % TWO24
  }

  function After(calls: seq<Call>): Gen
  {
    if calls == [] then Gen(0, 0) else Advance(After(calls[..|calls| - 1]), calls[|calls| - 1])
  }

  /** The number that the k-th call returns. */
  function SeqOf(calls: seq<Call>, k: nat): Int64
    requires k < |calls|
  {
    IntegerAfter(calls[..k + 1]);
    ToInt64(Pattern(After(calls[..k + 1]), calls[k].isServer))
  }

  /** The counter runs through 2, 4, ..., 0x1000000 and starts again. */
  lemma {:induction false} IntegerAfter(calls: seq<Call>)
    ensures After(calls).integer == if calls == [] then 0 else 2 * ((|calls| - 1) % EPOCH + 1)
  {
    if calls != [] {
      var n := |calls| - 1;
      IntegerAfter(calls[..n]);
      if n > 0 { NextInEpoch(n); }
    }
  }

  lemma NextInEpoch(n: int)
    requires n > 0
    ensures n % EPOCH == if (n - 1) % EPOCH == EPOCH - 1 then 0 else (n - 1) % EPOCH + 1
  {
  }

  /** Within an epoch the unique id stays. */
  lemma {:induction false} UniqueIdStays(calls: seq<Call>, j: nat, k: nat)
    requires j <= k < |calls| && j / EPOCH == k / EPOCH
    ensures After(calls[..j + 1]).uniqueId == After(calls[..k + 1]).uniqueId
  {
    if j < k {
      UniqueIdStays(calls, j, k - 1);
      var before := calls[..k];
      assert calls[..k + 1][..k] == before && calls[..k - 1 + 1] == before;
      IntegerAfter(before);
      assert k % EPOCH > 0;
    }
  }

  /** C's remainder, which takes the sign of its left operand. */
  function CRem(a: int, b: int): int
    requires b > 0
  {
    if a >= 0 then a % b else -((-a) % b)
  }

  /** A receiver that tests `seq % 2` learns the sender's side, also when the number is negative. */
  lemma DirectionTravels(calls: seq<Call>, k: nat)
    requires k < |calls|
    ensures CRem(SeqOf(calls, k) as int, SEQ_INTERVAL) != 0 <==> calls[k].isServer
  {
    hide After, Pattern, CRem, ToInt64;
    IntegerAfter(calls[..k + 1]);
    PatternParity(After(calls[..k + 1]), calls[k].isServer);
    SignKeepsParity(Pattern(After(calls[..k + 1]), calls[k].isServer));
  }

  lemma SignKeepsParity(u: int)
    requires 0 <= u < TWO64
    ensures CRem(ToInt64(u) as int, SEQ_INTERVAL) != 0 <==> u % 2 == 1
  {
    var x := ToInt64(u) as int;
    if x < 0 { assert -x == 2 * (TWO64 / 2) - u; }
  }

  lemma PatternParity(g: Gen, isServer: bool)
    requires g.integer >= 0 && g.integer % 2 == 0
    ensures Pattern(g, isServer) % 2 == if isServer then 1 else 0
  {
    var low := (g.integer + if isServer then 1 else 0) % TWO24;
    assert Pattern(g, isServer) == 2 * (g.uniqueId % TWO40 * (TWO24 / 2)) + low;
  }

  /** All numbers of one epoch differ, whichever sides asked for them. */
  lemma SeqsDifferInEpoch(calls: seq<Call>, j: nat, k: nat)
    requires j < k < |calls| && j / EPOCH == k / EPOCH
    ensures SeqOf(calls, j) != SeqOf(calls, k)
  {
    hide After;
    IntegerAfter(calls[..j + 1]);
    IntegerAfter(calls[..k + 1]);
    UniqueIdStays(calls, j, k);
    LowDiffers(j % EPOCH, k % EPOCH, calls[j].isServer, calls[k].isServer);
  }

  lemma LowDiffers(a: int, b: int, s: bool, t: bool)
    requires 0 <= a < EPOCH && 0 <= b < EPOCH && a != b
    ensures (2 * (a + 1) + if s then 1 else 0) % TWO24 != (2 * (b + 1) + if t then 1 else 0) % TWO24
  {
    LowOf(a, s);
    LowOf(b, t);
  }

  lemma LowOf(a: int, s: bool)
    requires 0 <= a < EPOCH
    ensures (2 * (a + 1) + if s then 1 else 0) % TWO24
         == (if a == EPOCH - 1 then 0 else 2 * (a + 1)) + if s then 1 else 0
  {
  }

  /** The call that opens the epoch of call k, if it computed a unique id. */
  function EpochId(calls: seq<Call>, k: nat): Option<nat>
    requires k < |calls|
  {
    calls[k / EPOCH * EPOCH].uid
  }

  /** Throughout an epoch the low 40 bits of the unique id are those computed at its start. */
  lemma EpochHasItsId(calls: seq<Call>, k: nat)
    requires k < |calls| && EpochId(calls, k).Some?
    ensures After(calls[..k + 1]).uniqueId % TWO40 == EpochId(calls, k).value % TWO40
  {
    var e := k / EPOCH * EPOCH;
    UniqueIdStays(calls, e, k);
    var before := calls[..e];
    assert calls[..e + 1][..e] == before && calls[..e + 1][e] == calls[e];
    IntegerAfter(before);
    if e > 0 { NextInEpoch(e); }
    var bits := calls[e].uid.value;
    UpdateKeepsLow(After(before).uniqueId, bits);
  }

  lemma UpdateKeepsLow(uniqueId: int, bits: nat)
    ensures Update(uniqueId, Some(bits)) % TWO40 == bits % TWO40
  {
    var x := uniqueId * TWO40 + bits % TWO40;
    assert x == x / TWO64 * (TWO24 * TWO40) + x % TWO64;
    assert x % TWO64 == (uniqueId - x / TWO64 * TWO24) * TWO40 + bits % TWO40;
    Multiple(uniqueId - x / TWO64 * TWO24, bits % TWO40);
  }

  lemma Multiple(a: int, b: int)
    requires 0 <= b < TWO40
    ensures (a * TWO40 + b) % TWO40 == b
  {
  }

  /**
   Numbers from epochs or devices whose unique ids differ in their low 40 bits are different, whichever calls and
   sides they come from.
   */
  lemma SeqsDifferAcrossIds(calls: seq<Call>, j: nat, others: seq<Call>, k: nat)
    requires j < |calls| && k < |others| && EpochId(calls, j).Some? && EpochId(others, k).Some?
    requires EpochId(calls, j).value % TWO40 != EpochId(others, k).value % TWO40
    ensures SeqOf(calls, j) != SeqOf(others, k)
  {
    hide After, Update;
    IntegerAfter(calls[..j + 1]);
    IntegerAfter(others[..k + 1]);
    EpochHasItsId(calls, j);
    EpochHasItsId(others, k);
    PatternsDiffer(After(calls[..j + 1]), calls[j].isServer, After(others[..k + 1]), others[k].isServer);
  }

  lemma PatternsDiffer(g: Gen, s: bool, h: Gen, t: bool)
    requires g.integer >= 0 && h.integer >= 0 && g.uniqueId % TWO40 != h.uniqueId % TWO40
    ensures ToInt64(Pattern(g, s)) != ToInt64(Pattern(h, t))
  {
    var a, b := g.uniqueId % TWO40, h.uniqueId % TWO40;
    var x, y := (g.integer + if s then 1 else 0) % TWO24, (h.integer + if t then 1 else 0) % TWO24;
    assert a * TWO24 + x != b * TWO24 + y;
  }

  class SeqGenerator {
    var integer: int
    var uniqueId: int
    ghost var calls: seq<Call>

    ghost predicate Valid()
      reads this
    {
      Gen(integer, uniqueId) == After(calls)
    }

    constructor ()
      ensures Valid() && calls == []
    {
      integer, uniqueId, calls := 0, 0, [];
    }

    method GenSeq(c: Call) returns (r: Int64)
      requires Valid()
      modifies this
      ensures Valid() && calls == old(calls) + [c] && r == SeqOf(calls, |calls| - 1)
    {
      hide Update;
      calls := calls + [c];
      assert calls[..|calls| - 1] == old(calls) && calls[..|calls|] == calls;
      IntegerAfter(calls);
      if integer >= SEQ_INTEGER_MAX { integer := 0; }
      if integer == 0 { uniqueId := Update(uniqueId, c.uid); }
      integer := integer + SEQ_INTERVAL;
      r := ToInt64(Pattern(Gen(integer, uniqueId), c.isServer));
    }
  }

  // ------------------------------------------------------ ConnGetNewRequestId

  class RequestIds {
    var reqId: int
    ghost var calls: nat

    ghost predicate Valid()
      reads this
    {
      reqId == RequestIdAfter(calls)
    }

    constructor ()
      ensures Valid() && calls == 0
    {
      reqId, calls := 1, 0;
    }

    method ConnGetNewRequestId() returns (r: int)
      requires Valid()
      modifies this
      ensures Valid() && calls == old(calls) + 1 && r == RequestIdAfter(calls)
    {
      RequestIdStep(calls);
      calls := calls + 1;
      reqId := reqId + 1;
      reqId := reqId % REQID_MAX + 1;
      r := reqId;
    }
  }

  /** The id after k calls. */
  function RequestIdAfter(k: nat): int
  {
    2 * (k % 500_000) + 1
  }

  lemma RequestIdStep(k: nat)
    ensures RequestIdAfter(k + 1) == (RequestIdAfter(k) + 1) % REQID_MAX + 1
  {
  }

  /** Any 500000 ids in a row are distinct. */
  lemma RequestIdsDiffer(j: nat, k: nat)
    requires j < k < j + 500_000
    ensures RequestIdAfter(j) != RequestIdAfter(k)
  {
  }
}
